/**
 * The podtracer command line: the pieces every controller assembles, and a
 * positional reading of a finished argument list that recovers the intent it
 * was built from. Layout: `run <command> -a <args>`, optionally `-t <timer>`,
 * optionally `-d <ip> -p <port>`, then `--pod <name> -n <namespace>`.
 */
module PodtracerArgs {
  import opened Kube

  /** The opening `run <command> -a <args>` every variant starts with. */
  function RunPrefix(command: string, args: string): seq<string> {
    ["run", command, "-a", args]
  }

  /** `-t <timer>` when a timer is set, nothing otherwise. */
  function TimerFlags(timer: string): seq<string> {
    if timer != "" then ["-t", timer] else []
  }

  /** `-d <ip> -p <port>` when a data service address is set, nothing otherwise (the port alone is dropped). */
  function SinkFlags(ip: string, port: string): seq<string> {
    if ip != "" then ["-d", ip, "-p", port] else []
  }

  /** The per-pod tail `--pod <name> -n <namespace>`, both taken from the pod itself. */
  function TargetFlags(pod: Pod): (r: seq<string>)
    ensures |r| == 4 && r[0] == "--pod" && r[2] == "-n"
    ensures r[1] == pod.meta.name && r[3] == pod.meta.namespace
  {
    ["--pod", pod.meta.name, "-n", pod.meta.namespace]
  }

  /** The per-pod list of the CommandJob and Command reconcilers: the run prefix and the target tail, nothing between. */
  function CommandArgs(command: string, args: string, pod: Pod): (r: seq<string>)
    ensures r == ["run", command, "-a", args, "--pod", pod.meta.name, "-n", pod.meta.namespace]
  {
    RunPrefix(command, args) + TargetFlags(pod)
  }

  datatype Sink = Sink(ip: string, port: string)

  datatype Target = Target(pod: string, namespace: string)

  /** What a podtracer argument list asks for. */
  datatype Invocation = Invocation(
    command: string,
    args: string,
    timer: Option<string>,
    sink: Option<Sink>,
    target: Option<Target>)

  /** The value after `flag` when the list starts with it, and what follows. */
  function TakeFlag(xs: seq<string>, flag: string): (Option<string>, seq<string>) {
    if |xs| >= 2 && xs[0] == flag then (Some(xs[1]), xs[2..]) else (None, xs)
  }

  /** The two values after `f1` and `f2` when the list starts `f1 a f2 b`, and what follows. */
  function TakePair(xs: seq<string>, f1: string, f2: string): (Option<(string, string)>, seq<string>) {
    if |xs| >= 4 && xs[0] == f1 && xs[2] == f2 then (Some((xs[1], xs[3])), xs[4..]) else (None, xs)
  }

  /** Reads an argument list positionally; None when it does not follow the layout. */
  function Decode(xs: seq<string>): Option<Invocation> {
    if |xs| < 4 || xs[0] != "run" || xs[2] != "-a" then None
    else
      var (timer, r1) := TakeFlag(xs[4..], "-t");
      var (sink, r2) := TakePair(r1, "-d", "-p");
      var (target, r3) := TakePair(r2, "--pod", "-n");
      if |r3| != 0 then None
      else Some(Invocation(
        xs[1], xs[3], timer,
        if sink.Some? then Some(Sink(sink.value.0, sink.value.1)) else None,
        if target.Some? then Some(Target(target.value.0, target.value.1)) else None))
  }

  /** The intent an assembled list is meant to carry: an empty timer or address means the flag is absent. */
  function Intended(command: string, args: string, timer: string, ip: string, port: string, pod: Pod): Invocation {
    Invocation(
      command, args,
      if timer != "" then Some(timer) else None,
      if ip != "" then Some(Sink(ip, port)) else None,
      Some(Target(pod.meta.name, pod.meta.namespace)))
  }

  /** Every list assembled in the layout reads back as the intent it was built from. */
  lemma DecodeAssembled(command: string, args: string, timer: string, ip: string, port: string, pod: Pod)
    ensures Decode(RunPrefix(command, args) + TimerFlags(timer) + SinkFlags(ip, port) + TargetFlags(pod))
         == Some(Intended(command, args, timer, ip, port, pod))
  {
    var xs := RunPrefix(command, args) + TimerFlags(timer) + SinkFlags(ip, port) + TargetFlags(pod);
    var rest := TimerFlags(timer) + SinkFlags(ip, port) + TargetFlags(pod);
    assert xs[4..] == rest;
    var r1 := SinkFlags(ip, port) + TargetFlags(pod);
    assert "-d"[1] != "-t"[1] && "--pod"[1] != "-t"[1] && "--pod"[1] != "-d"[1];
    if timer != "" {
      assert rest == ["-t", timer] + r1;
      assert rest[2..] == r1;
    } else {
      assert rest == r1;
    }
    assert TakeFlag(rest, "-t") == (if timer != "" then Some(timer) else None, r1);
    if ip != "" {
      assert r1[4..] == TargetFlags(pod);
    }
    assert TakePair(r1, "-d", "-p") == (if ip != "" then Some((ip, port)) else None, TargetFlags(pod));
    assert TargetFlags(pod)[4..] == [];
    assert TakePair(TargetFlags(pod), "--pod", "-n") == (Some((pod.meta.name, pod.meta.namespace)), []);
  }

  /** The per-pod command list reads back as the command aimed at that pod, with no timer and no data sink. */
  lemma CommandArgsDecode(command: string, args: string, pod: Pod)
    ensures Decode(CommandArgs(command, args, pod)) == Some(Intended(command, args, "", "", "", pod))
  {
    assert RunPrefix(command, args) + TimerFlags("") + SinkFlags("", "") + TargetFlags(pod) == CommandArgs(command, args, pod);
    DecodeAssembled(command, args, "", "", "", pod);
  }
}
