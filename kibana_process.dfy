/**
 * The Kibana child-process launcher: where it looks for its home and config
 * directories, how it filters the caller's arguments and composes the launch
 * arguments, and how it detects that Kibana has started, either from lines fed
 * to it directly or by tailing the log file Kibana writes.
 *
 * The collaborators that are not part of this model appear as inputs: the
 * environment and the working directory as constructor parameters, the log
 * file's content as a parameter of each operation that reads it, and the
 * parser of Kibana's log lines and the line splitter of the file reader as
 * functions fixed at construction.
 */
module KibanaProcess {
  import opened Wrappers
  import opened Paths

  // ---------------------------------------------------------------------------
  // Directory resolution
  // ---------------------------------------------------------------------------

  /** C#'s `explicit ?? fromEnvironment ?? fallback`. */
  function FirstNonNull(explicit: Option<string>, fromEnvironment: Option<string>, fallback: string): string {
    explicit.GetOr(fromEnvironment.GetOr(fallback))
  }

  /**
   * The home directory: the explicit value, else the machine-level environment
   * variable, else the parent of the working directory, without trailing backslashes.
   */
  function ResolveHomeDirectory(explicit: Option<string>, fromEnvironment: Option<string>, parentOfWorkingDirectory: string): (home: string)
    ensures explicit.Some? ==> TrimmedFrom(home, explicit.value)
    ensures explicit.None? && fromEnvironment.Some? ==> TrimmedFrom(home, fromEnvironment.value)
    ensures explicit.None? && fromEnvironment.None? ==> TrimmedFrom(home, parentOfWorkingDirectory)
  {
    TrimEndBackslashes(FirstNonNull(explicit, fromEnvironment, parentOfWorkingDirectory))
  }

  /**
   * The config directory: the explicit value, else the machine-level environment
   * variable, else `config` under the home directory, without trailing backslashes.
   */
  function ResolveConfigDirectory(explicit: Option<string>, fromEnvironment: Option<string>, home: string): (config: string)
    ensures explicit.Some? ==> TrimmedFrom(config, explicit.value)
    ensures explicit.None? && fromEnvironment.Some? ==> TrimmedFrom(config, fromEnvironment.value)
    ensures explicit.None? && fromEnvironment.None? ==> TrimmedFrom(config, Combine(home, "config"))
  {
    TrimEndBackslashes(FirstNonNull(explicit, fromEnvironment, Combine(home, "config")))
  }

  /**
   * With neither an explicit nor an environment value, the config directory is
   * `Combine(home, "config")`, which trimming leaves as it is; it is
   * `home + "\config"` unless home is empty or ends with a backslash, '/' or ':'.
   */
  lemma DefaultConfigDirectoryUnderHome(home: string)
    ensures ResolveConfigDirectory(None, None, home) == Combine(home, "config")
    ensures home <= ResolveConfigDirectory(None, None, home)
    ensures home != "" && home[|home| - 1] !in {'/', ':'} && !EndsWithBackslash(home) ==>
      ResolveConfigDirectory(None, None, home) == home + "\\config"
  {
    var c := Combine(home, "config");
    assert EndsWith(c, "config");
    assert c[|c| - 1] == 'g';
    TrimmedFromUnique(TrimEndBackslashes(c), c, c);
  }

  /**
   * When the working directory's parent is a drive root, the home directory is
   * trimmed to the bare drive and the default config directory and script path
   * become drive-relative: `C:config` and `C:src\cli`.
   */
  lemma DriveRootHome()
    ensures ResolveHomeDirectory(None, None, "C:\\") == "C:"
    ensures ResolveConfigDirectory(None, None, "C:") == "C:config"
    ensures Combine("C:", "src\\cli") == "C:src\\cli"
  {
    assert "C:\\"[..1 + 1] == "C:";
  }

  /** `$"\"{s}\""`. */
  function Quoted(s: string): string {
    "\"" + s + "\""
  }

  // ---------------------------------------------------------------------------
  // Argument filtering, as the loop in ParseArguments behaves
  // ---------------------------------------------------------------------------

  predicate IsConfigFlag(arg: string) {
    arg == "--config" || arg == "-c"
  }

  /** The arguments passed through: every token except the config flags themselves. */
  function PassThrough(args: seq<string>): seq<string> {
    if args == [] then []
    else
      var last := args[|args| - 1];
      PassThrough(args[..|args| - 1]) + (if IsConfigFlag(last) then [] else [last])
  }

  /** The last config flag token of `args`, if it has one. */
  function LastConfigFlag(args: seq<string>): Option<string> {
    if args == [] then None
    else if IsConfigFlag(args[|args| - 1]) then Some(args[|args| - 1])
    else LastConfigFlag(args[..|args| - 1])
  }

  /** Filtering works token by token: it distributes over concatenation, so relative order is kept. */
  lemma {:induction false} PassThroughAppend(a: seq<string>, b: seq<string>)
    ensures PassThrough(a + b) == PassThrough(a) + PassThrough(b)
  {
    if b == [] {
      assert a + b == a;
    } else {
      var init := b[..|b| - 1];
      assert (a + b)[..|a + b| - 1] == a + init;
      PassThroughAppend(a, init);
    }
  }

  /** Every config flag is removed and every other token is kept, as often as it occurs in the input. */
  lemma {:induction false} PassThroughCounts(args: seq<string>)
    ensures forall x :: multiset(PassThrough(args))[x] == if IsConfigFlag(x) then 0 else multiset(args)[x]
  {
    if args != [] {
      var init := args[..|args| - 1];
      PassThroughCounts(init);
      assert args == init + [args[|args| - 1]];
    }
  }

  /** The last flag of a concatenation is the last flag of the second part, if it has one, else of the first. */
  lemma {:induction false} LastConfigFlagAppend(a: seq<string>, b: seq<string>)
    ensures LastConfigFlag(a + b) == if LastConfigFlag(b).Some? then LastConfigFlag(b) else LastConfigFlag(a)
  {
    if b == [] {
      assert a + b == a;
    } else {
      var init := b[..|b| - 1];
      assert (a + b)[..|a + b| - 1] == a + init;
      LastConfigFlagAppend(a, init);
    }
  }

  /**
   * LastConfigFlag finds something exactly when a flag occurs, and then it is the
   * flag token itself, at a position after which no flag occurs.
   */
  lemma {:induction false} LastConfigFlagSpec(args: seq<string>)
    ensures LastConfigFlag(args).None? <==> forall i | 0 <= i < |args| :: !IsConfigFlag(args[i])
    ensures LastConfigFlag(args).Some? ==>
      && IsConfigFlag(LastConfigFlag(args).value)
      && exists i | 0 <= i < |args| :: args[i] == LastConfigFlag(args).value && forall j | i < j < |args| :: !IsConfigFlag(args[j])
  {
    if args != [] {
      var init := args[..|args| - 1];
      LastConfigFlagSpec(init);
      if !IsConfigFlag(args[|args| - 1]) && LastConfigFlag(init).Some? {
        var i :| 0 <= i < |init| && init[i] == LastConfigFlag(init).value && forall j | i < j < |init| :: !IsConfigFlag(init[j]);
        assert args[i] == LastConfigFlag(args).value;
      }
    }
  }

  /**
   * A flag does not consume the token after it: that token is passed through, and
   * it is the flag token that becomes the config directory.
   */
  lemma FlagKeepsNextToken(before: seq<string>, flag: string, next: string, after: seq<string>)
    requires IsConfigFlag(flag) && !IsConfigFlag(next)
    ensures PassThrough(before + [flag, next] + after) == PassThrough(before) + [next] + PassThrough(after)
    ensures LastConfigFlag(before + [flag, next] + after) == if LastConfigFlag(after).Some? then LastConfigFlag(after) else Some(flag)
  {
    var args := before + [flag, next] + after;
    assert args == (before + [flag]) + ([next] + after);
    PassThroughAppend(before + [flag], [next] + after);
    PassThroughAppend(before, [flag]);
    PassThroughAppend([next], after);
    assert PassThrough([flag]) == [];
    assert PassThrough([next]) == [next];
    LastConfigFlagAppend(before + [flag], [next] + after);
    LastConfigFlagAppend([next], after);
    LastConfigFlagAppend(before, [flag]);
  }

  // ---------------------------------------------------------------------------
  // Readiness: the one-shot state machine of HandleMessage
  // ---------------------------------------------------------------------------

  /** The address a started confirmation announces. */
  datatype Confirmation = Confirmation(host: string, port: Option<int>)

  /**
   * What Kibana's log-line parser makes of one line: its message text (None for
   * null) and, when the line is the server-started confirmation, its address.
   */
  datatype KibanaMessage = KibanaMessage(message: Option<string>, startedConfirmation: Option<Confirmation>)

  /** `char.IsWhiteSpace`: the Unicode separators and the control characters U+0009 to U+000D and U+0085. */
  predicate IsWhiteSpace(c: char) {
    || c == ' ' || c == '\U{A0}' || c == '\U{1680}' || ('\U{2000}' <= c <= '\U{200A}')
    || c == '\U{2028}' || c == '\U{2029}' || c == '\U{202F}' || c == '\U{205F}' || c == '\U{3000}'
    || ('\U{9}' <= c <= '\U{D}') || c == '\U{85}'
  }

  /** `string.IsNullOrWhiteSpace`. */
  predicate IsNullOrWhiteSpace(s: Option<string>) {
    s.None? || forall i | 0 <= i < |s.value| :: IsWhiteSpace(s.value[i])
  }

  /**
   * Which messages are blank: null, empty, or made only of white space; a
   * message with any other character is not.
   */
  lemma BlankMessages()
    ensures IsNullOrWhiteSpace(None) && IsNullOrWhiteSpace(Some(""))
    ensures IsNullOrWhiteSpace(Some(" \t\r\n")) && IsNullOrWhiteSpace(Some("\U{A0}\U{3000}"))
    ensures !IsNullOrWhiteSpace(Some(" ok "))
  {
    assert !IsWhiteSpace(" ok "[1]);
  }

  /**
   * The part of the launcher's state that readiness detection changes: whether
   * Kibana has started, the recorded address, whether the file watcher is raising
   * events, and how many times the started signal has fired.
   */
  datatype Readiness = Readiness(started: bool, host: Option<string>, port: Option<int>, watching: bool, signals: nat)

  /** The state right after the first confirmation: address recorded, watcher stopped, signal fired. */
  function Confirmed(s: Readiness, c: Confirmation): Readiness {
    s.(started := true, host := Some(c.host), port := c.port, watching := false, signals := s.signals + 1)
  }

  /** One message handled. */
  function Step(s: Readiness, m: KibanaMessage): Readiness {
    if s.started || IsNullOrWhiteSpace(m.message) then s
    else if m.startedConfirmation.Some? then Confirmed(s, m.startedConfirmation.value)
    else s
  }

  /** A blank message changes nothing, whatever it would otherwise confirm. */
  lemma BlankMessageIgnored(s: Readiness, m: KibanaMessage)
    requires IsNullOrWhiteSpace(m.message)
    ensures Step(s, m) == s
  {
  }

  /** Messages handled in order. */
  function Run(s: Readiness, ms: seq<KibanaMessage>): Readiness
    decreases |ms|
  {
    if ms == [] then s else Run(Step(s, ms[0]), ms[1..])
  }

  /** The first non-blank message that confirms the start, if any: the reference for what a run records. */
  function FirstConfirmation(ms: seq<KibanaMessage>): Option<Confirmation> {
    if ms == [] then None
    else if !IsNullOrWhiteSpace(ms[0].message) && ms[0].startedConfirmation.Some? then ms[0].startedConfirmation
    else FirstConfirmation(ms[1..])
  }

  /** Handling one more message after a run is the run of the longer sequence. */
  lemma {:induction false} RunSnoc(s: Readiness, ms: seq<KibanaMessage>, m: KibanaMessage)
    ensures Run(s, ms + [m]) == Step(Run(s, ms), m)
    decreases |ms|
  {
    if ms != [] {
      assert (ms + [m])[1..] == ms[1..] + [m];
      RunSnoc(Step(s, ms[0]), ms[1..], m);
    }
  }

  /** Once started, nothing changes any more: no message, confirmation or not, alters the address or fires the signal. */
  lemma {:induction false} RunAfterStarted(s: Readiness, ms: seq<KibanaMessage>)
    requires s.started
    ensures Run(s, ms) == s
    decreases |ms|
  {
    if ms != [] {
      RunAfterStarted(Step(s, ms[0]), ms[1..]);
    }
  }

  /**
   * From a not-yet-started state, a run of messages ends started exactly when one of
   * them confirms the start; the recorded address is that of the FIRST confirmation,
   * the watcher is stopped and the signal has fired exactly once more; otherwise
   * nothing has changed.
   */
  lemma {:induction false} RunOneShot(s: Readiness, ms: seq<KibanaMessage>)
    requires !s.started
    ensures Run(s, ms) == if FirstConfirmation(ms).Some? then Confirmed(s, FirstConfirmation(ms).value) else s
    decreases |ms|
  {
    if ms != [] {
      var t := Step(s, ms[0]);
      if t.started {
        RunAfterStarted(t, ms[1..]);
      } else {
        RunOneShot(t, ms[1..]);
      }
    }
  }

  // ---------------------------------------------------------------------------
  // Log tailing
  // ---------------------------------------------------------------------------

  /** What a reader positioned at `offset` sees of `file`: nothing when the offset is past the end. */
  function Unread(file: seq<char>, offset: nat): seq<char> {
    if offset <= |file| then file[offset..] else []
  }

  /**
   * The stream position after seeking to `offset` and reading to the end of a file
   * of `length`: the end of the file, or the offset itself when it lies beyond.
   */
  function PositionAfterRead(offset: nat, length: nat): (p: nat)
    ensures offset <= p && length <= p
    ensures p == offset || p == length
  {
    if offset <= length then length else offset
  }

  /**
   * The text that successive change notifications read while Kibana has not
   * started (OnChanged reads nothing once it has), starting at `offset`, when
   * `files` is the log file's content at each of them.
   */
  function TailedText(files: seq<seq<char>>, offset: nat): seq<char>
    decreases |files|
  {
    if files == [] then []
    else Unread(files[0], offset) + TailedText(files[1..], PositionAfterRead(offset, |files[0]|))
  }

  /** Each observed content extends the ones observed before it. */
  predicate AppendOnly(files: seq<seq<char>>) {
    forall i, j | 0 <= i < j < |files| :: files[i] <= files[j]
  }

  /**
   * For a log file that only grows, the notifications together read exactly what
   * was appended after the offset: nothing before it, nothing twice, nothing skipped.
   */
  lemma {:induction false} TailedTextIsAppendedContent(files: seq<seq<char>>, offset: nat)
    requires |files| > 0 && AppendOnly(files) && offset <= |files[0]|
    ensures TailedText(files, offset) == files[|files| - 1][offset..]
    decreases |files|
  {
    var last := files[|files| - 1];
    assert files[0] <= last;
    if |files| > 1 {
      var rest := files[1..];
      assert AppendOnly(rest) by {
        forall i, j | 0 <= i < j < |rest| ensures rest[i] <= rest[j] {
          assert files[i + 1] <= files[j + 1];
        }
      }
      assert files[0] <= files[1];
      TailedTextIsAppendedContent(rest, |files[0]|);
      assert files[0][offset..] == last[offset..|files[0]|];
      assert last[offset..] == last[offset..|files[0]|] + last[|files[0]|..];
    }
  }

  /**
   * The byte ranges read so far, in order, leave no gap and no overlap and cover
   * exactly `from` to `to`.
   */
  ghost predicate Contiguous(ranges: seq<(nat, nat)>, from: nat, to: nat)
    decreases |ranges|
  {
    if ranges == [] then from == to
    else
      var last := ranges[|ranges| - 1];
      last.0 <= last.1 && last.1 == to && Contiguous(ranges[..|ranges| - 1], from, last.0)
  }

  /**
   * Contiguous ranges all lie between their start and end and never overlap: no
   * byte before `from` (the content present when tailing began) is read, and no
   * byte is read twice.
   */
  lemma {:induction false} ContiguousRanges(ranges: seq<(nat, nat)>, from: nat, to: nat)
    requires Contiguous(ranges, from, to)
    ensures from <= to
    ensures forall i | 0 <= i < |ranges| :: from <= ranges[i].0 <= ranges[i].1 <= to
    ensures forall i, j | 0 <= i < j < |ranges| :: ranges[i].1 <= ranges[j].0
  {
    if ranges != [] {
      var init := ranges[..|ranges| - 1];
      ContiguousRanges(init, from, ranges[|ranges| - 1].0);
    }
  }

  // ---------------------------------------------------------------------------
  // The launcher object
  // ---------------------------------------------------------------------------

  class KibanaProcess {
    var HomeDirectory: string
    var ConfigDirectory: string
    var JsPath: string
    var ConfigFile: string
    var ProcessExe: string
    var LogFile: string
    var AdditionalArguments: seq<string>
    var Host: Option<string>
    var Port: Option<int>
    var Started: bool
    /** How many times the started signal (the subject's notification and the wait handle) has fired. */
    var signals: nat
    /** Whether a file watcher has been created for the log file. */
    var hasWatcher: bool
    /** Whether that watcher raises change events. */
    var watching: bool
    /** The offset in the log file up to which it has been read. */
    var seekTo: nat
    /** The offset at which tailing began. */
    ghost var InitialOffset: nat
    /** The byte ranges each change notification has read, in order. */
    ghost var Reads: seq<(nat, nat)>
    /** Kibana's log-line parser. */
    const parse: string -> KibanaMessage
    /** How the file reader splits text into lines; no text gives no line. */
    const splitLines: seq<char> -> seq<string>

    ghost predicate Valid()
      reads this
    {
      && splitLines([]) == []
      && signals == (if Started then 1 else 0)
      && (watching ==> hasWatcher)
      && InitialOffset <= seekTo
      && Contiguous(Reads, InitialOffset, seekTo)
    }

    function View(): Readiness
      reads this
    {
      Readiness(Started, Host, Port, watching, signals)
    }

    function Messages(lines: seq<string>): (ms: seq<KibanaMessage>)
      ensures |ms| == |lines|
    {
      seq(|lines|, i requires 0 <= i < |lines| => parse(lines[i]))
    }

    /**
     * Resolves the directories and derived paths. `explicitHome` and
     * `explicitConfig` are what the base class left in those properties, the
     * environment values are the machine-level variables, and
     * `loggingDestination` is the setting read from the config directory's
     * kibana.yml.
     */
    constructor(explicitHome: Option<string>, explicitConfig: Option<string>,
                homeFromEnvironment: Option<string>, configFromEnvironment: Option<string>,
                parentOfWorkingDirectory: string, loggingDestination: string,
                additionalArguments: seq<string>,
                parse: string -> KibanaMessage, splitLines: seq<char> -> seq<string>)
      requires splitLines([]) == []
      ensures Valid()
      ensures HomeDirectory == ResolveHomeDirectory(explicitHome, homeFromEnvironment, parentOfWorkingDirectory)
      ensures ConfigDirectory == ResolveConfigDirectory(explicitConfig, configFromEnvironment, HomeDirectory)
      ensures !EndsWithBackslash(HomeDirectory) && !EndsWithBackslash(ConfigDirectory)
      ensures JsPath == Combine(HomeDirectory, "src\\cli")
      ensures ConfigFile == Combine(ConfigDirectory, "kibana.yml")
      ensures ProcessExe == Combine(HomeDirectory, "node\\node.exe")
      ensures LogFile == loggingDestination && AdditionalArguments == additionalArguments
      ensures View() == Readiness(false, None, None, false, 0) && !hasWatcher
      ensures this.parse == parse && this.splitLines == splitLines
    {
      var home := ResolveHomeDirectory(explicitHome, homeFromEnvironment, parentOfWorkingDirectory);
      var config := ResolveConfigDirectory(explicitConfig, configFromEnvironment, home);
      HomeDirectory, ConfigDirectory := home, config;
      JsPath := Combine(home, "src\\cli");
      ConfigFile := Combine(config, "kibana.yml");
      ProcessExe := Combine(home, "node\\node.exe");
      LogFile := loggingDestination;
      AdditionalArguments := additionalArguments;
      Host, Port, Started, signals := None, None, false, 0;
      hasWatcher, watching, seekTo := false, false, 0;
      InitialOffset, Reads := 0, [];
      this.parse := parse;
      this.splitLines := splitLines;
    }

    /**
     * The launch arguments: the caller's arguments, then the three fixed ones that
     * silence warnings, name the entry script and point Kibana at the config file.
     */
    function GetArguments(): (args: seq<string>)
      reads this
      ensures |args| == |AdditionalArguments| + 3
      ensures AdditionalArguments <= args
      ensures args[|AdditionalArguments|] == "--no-warnings"
      ensures args[|AdditionalArguments| + 1] == Quoted(JsPath)
      ensures args[|AdditionalArguments| + 2] == "--config " + Quoted(ConfigFile)
    {
      AdditionalArguments + ["--no-warnings", Quoted(JsPath), "--config " + Quoted(ConfigFile)]
    }

    /**
     * Drops the config flags from the caller's arguments. As written, the flag
     * that announces "the next argument is the config path" is set and cleared for
     * the same token, so the flag token itself is stored as the config directory and
     * the token after it is passed through.
     */
    method ParseArguments(args: Option<seq<string>>) returns (newArgs: seq<string>)
      modifies this`ConfigDirectory
      ensures args.None? ==> newArgs == [] && ConfigDirectory == old(ConfigDirectory)
      ensures args.Some? ==> newArgs == PassThrough(args.value)
      ensures args.Some? ==> ConfigDirectory == LastConfigFlag(args.value).GetOr(old(ConfigDirectory))
    {
      newArgs := [];
      if args.None? {
        return;
      }
      var all := args.value;
      var nextArgIsConfigPath := false;
      for i := 0 to |all|
        invariant !nextArgIsConfigPath
        invariant newArgs == PassThrough(all[..i])
        invariant ConfigDirectory == LastConfigFlag(all[..i]).GetOr(old(ConfigDirectory))
      {
        var arg := all[i];
        assert all[..i + 1][..i] == all[..i];
        if arg == "--config" || arg == "-c" {
          nextArgIsConfigPath := true;
        }
        if nextArgIsConfigPath {
          nextArgIsConfigPath := false;
          ConfigDirectory := arg;
        } else {
          newArgs := newArgs + [arg];
        }
      }
      assert all[..|all|] == all;
    }

    /**
     * Unless the log destination is the `stdout` sentinel, creates and starts a
     * watcher on the log file, positioned at the file's current length (0 when the
     * file does not exist) so that what is already there is never read.
     * `logAtStart` is the file's content at this moment, None when it does not exist.
     * Launching the process itself belongs to the base class.
     */
    method Start(logAtStart: Option<seq<char>>)
      requires Valid()
      modifies this`hasWatcher, this`watching, this`seekTo, this`InitialOffset, this`Reads
      ensures Valid()
      ensures LogFile == "stdout" ==> unchanged(this)
      ensures LogFile != "stdout" ==>
        && hasWatcher && watching
        && seekTo == (if logAtStart.Some? then |logAtStart.value| else 0)
        && InitialOffset == seekTo && Reads == []
    {
      if LogFile != "stdout" {
        var offset := if logAtStart.Some? then |logAtStart.value| else 0;
        hasWatcher := true;
        seekTo := offset;
        InitialOffset, Reads := offset, [];
        watching := true;
      }
    }

    /**
     * One change notification from the watcher, with `file` the log file's content
     * when it is read. While Kibana has not started, every line from the stored
     * offset to the end goes, in file order, to HandleMessage, and the offset then
     * moves to the end position; it never moves backward.
     */
    method OnChanged(file: seq<char>)
      requires Valid()
      modifies this`Started, this`Host, this`Port, this`watching, this`signals, this`seekTo, this`Reads
      ensures Valid()
      ensures old(seekTo) <= seekTo
      ensures old(watching && !Started) ==>
        && View() == Run(old(View()), Messages(splitLines(Unread(file, old(seekTo)))))
        && seekTo == PositionAfterRead(old(seekTo), |file|)
        && Reads == old(Reads) + [(old(seekTo), seekTo)]
      ensures !old(watching && !Started) ==> View() == old(View()) && seekTo == old(seekTo) && Reads == old(Reads)
      ensures Unread(file, old(seekTo)) == [] ==> View() == old(View())
    {
      if !watching || Started {
        return;
      }
      var lines := splitLines(Unread(file, seekTo));
      ghost var before := View();
      var k := 0;
      while k < |lines|
        invariant 0 <= k <= |lines|
        invariant Valid()
        invariant seekTo == old(seekTo) && Reads == old(Reads)
        invariant View() == Run(before, Messages(lines[..k]))
      {
        HandleMessage(lines[k]);
        RunSnoc(before, Messages(lines[..k]), parse(lines[k]));
        assert Messages(lines[..k + 1]) == Messages(lines[..k]) + [parse(lines[k])];
        k := k + 1;
      }
      assert lines[..|lines|] == lines;
      var position := PositionAfterRead(seekTo, |file|);
      Reads := Reads + [(seekTo, position)];
      assert Reads[..|Reads| - 1] == old(Reads);
      seekTo := position;
    }

    /**
     * Handles one line of Kibana's output. Blank messages and everything after the
     * start are ignored; the first confirmation stops the watcher, records the
     * address, fires the started signal and marks the process started.
     */
    method HandleMessage(data: string)
      requires Valid()
      modifies this`Started, this`Host, this`Port, this`watching, this`signals
      ensures Valid()
      ensures View() == Step(old(View()), parse(data))
    {
      var message := parse(data);
      if Started || IsNullOrWhiteSpace(message.message) {
        return;
      }
      if message.startedConfirmation.Some? {
        var confirmation := message.startedConfirmation.value;
        if hasWatcher {
          watching := false;
        }
        Host := Some(confirmation.host);
        Port := confirmation.port;
        signals := signals + 1;
        Started := true;
      }
    }
  }
}
