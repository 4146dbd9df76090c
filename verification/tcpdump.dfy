/**
 * The two pure helpers of controllers/pcap/tcpdump_controller.go: the
 * podtracer argument list for a tcpdump target, and the tcpdump option string.
 * The option string renders its counts with Go's string(int64), a one-rune
 * conversion; GenerateTcpdumpArgsDecimal is the decimal rendering the option
 * string evidently intends.
 */
module Tcpdump {
  import opened Kube
  import opened Text
  import opened PodtracerArgs

  /** Go's int64. */
  type Int64 = x: int | -0x8000_0000_0000_0000 <= x < 0x8000_0000_0000_0000

  /** GeneratePodtracerArgs: `<command> <args> --pod <name> -n <namespace>`, with no `run` or `-a`; it never fails. */
  function GeneratePodtracerArgs(command: string, args: string, pod: string, namespace: string): (r: Result<seq<string>>)
    ensures r.Ok?
    ensures r.value == [command, args, "--pod", pod, "-n", namespace]
  {
    Ok([command, args] + ["--pod", pod, "-n", namespace])
  }

  /** The list does not follow the `run <command> -a <args>` layout the job controllers emit, whatever its inputs. */
  lemma PodtracerArgsOffLayout(command: string, args: string, pod: string, namespace: string)
    ensures Decode(GeneratePodtracerArgs(command, args, pod, namespace).value) == None
  {
    assert "--pod"[1] != "-a"[1];
  }

  /**
   * The tcpdump tokens, counts rendered by `render`: with a packet count,
   * capture that many packets and ignore the file size; with none, rotate
   * files at the file size, and end with a stray `--pod`.
   */
  function TcpdumpTokens(iface: string, packetCount: Int64, fileSize: Int64, path: string,
                         render: int -> string): seq<string> {
    if packetCount != 0 then ["-i", iface, "-c", render(packetCount), "-w", path]
    else ["-i", iface, "-C", render(fileSize), "-w", path, "--pod"]
  }

  /** GenerateTcpdumpArgs as written: the tokens space-joined, counts rendered by string(int64); it never fails. */
  function GenerateTcpdumpArgs(iface: string, packetCount: Int64, fileSize: Int64, path: string): (r: Result<string>)
    ensures r.Ok?
    ensures packetCount != 0 ==> r.value == Join(["-i", iface, "-c", RuneString(packetCount), "-w", path], " ")
    ensures packetCount == 0 ==> r.value == Join(["-i", iface, "-C", RuneString(fileSize), "-w", path, "--pod"], " ")
  {
    Ok(Join(TcpdumpTokens(iface, packetCount, fileSize, path, RuneString), " "))
  }

  /** The option string with the counts in decimal, as tcpdump's -c and -C expect. */
  function GenerateTcpdumpArgsDecimal(iface: string, packetCount: Int64, fileSize: Int64, path: string): (r: Result<string>)
    ensures r.Ok?
  {
    Ok(Join(TcpdumpTokens(iface, packetCount, fileSize, path, DecimalString), " "))
  }

  /** With a packet count set, the file size has no effect on either rendering. */
  lemma FileSizeIgnored(iface: string, packetCount: Int64, s1: Int64, s2: Int64, path: string)
    requires packetCount != 0
    ensures GenerateTcpdumpArgs(iface, packetCount, s1, path) == GenerateTcpdumpArgs(iface, packetCount, s2, path)
    ensures GenerateTcpdumpArgsDecimal(iface, packetCount, s1, path) == GenerateTcpdumpArgsDecimal(iface, packetCount, s2, path)
  {
  }

  /** The tokens free of spaces: the fixed flags, and every rendered count and path given space-free. */
  lemma TokensSpaceFree(iface: string, packetCount: Int64, fileSize: Int64, path: string, render: int -> string)
    requires NoChar(iface, ' ') && NoChar(path, ' ')
    requires NoChar(render(packetCount), ' ') && NoChar(render(fileSize), ' ')
    ensures forall i :: 0 <= i < |TcpdumpTokens(iface, packetCount, fileSize, path, render)| ==>
      NoChar(TcpdumpTokens(iface, packetCount, fileSize, path, render)[i], ' ')
  {
    assert NoChar("-i", ' ') && NoChar("-c", ' ') && NoChar("-C", ' ') && NoChar("-w", ' ') && NoChar("--pod", ' ');
  }

  /**
   * The decimal option string splits back into its tokens, and the count
   * token parses back to the requested count: the packet count when set,
   * the file size otherwise.
   */
  lemma DecimalArgsRoundTrip(iface: string, packetCount: Int64, fileSize: Int64, path: string)
    requires NoChar(iface, ' ') && NoChar(path, ' ')
    ensures var tokens := Split(GenerateTcpdumpArgsDecimal(iface, packetCount, fileSize, path).value, ' ');
      && tokens == TcpdumpTokens(iface, packetCount, fileSize, path, DecimalString)
      && ParseDecimal(tokens[3]) == Some(if packetCount != 0 then packetCount as int else fileSize as int)
  {
    DecimalRoundTrip(packetCount);
    DecimalRoundTrip(fileSize);
    TokensSpaceFree(iface, packetCount, fileSize, path, DecimalString);
    SplitJoin(TcpdumpTokens(iface, packetCount, fileSize, path, DecimalString), ' ');
  }

  /**
   * As written, a packet count of 100 becomes the token "d" (code point 100),
   * which is no number at all: tcpdump is not asked for 100 packets.
   */
  lemma RuneCountCounterexample()
    ensures var tokens := Split(GenerateTcpdumpArgs("eth0", 100, 0, "out.pcap").value, ' ');
      |tokens| == 6 && tokens[3] == "d"
    ensures ParseDecimal("d") == None
  {
    assert RuneString(100) == "d";
    assert NoChar("eth0", ' ') && NoChar("out.pcap", ' ') && NoChar("d", ' ');
    TokensSpaceFree("eth0", 100, 0, "out.pcap", RuneString);
    SplitJoin(TcpdumpTokens("eth0", 100, 0, "out.pcap", RuneString), ' ');
    assert !IsDigit('d');
  }
}
