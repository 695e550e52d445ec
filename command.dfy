/**
 * `DownloadTask.build_command`: the argument vector handed to aria2c, built
 * from the aria2c path, the task's url, output directory and file name, and
 * its options dictionary. Creating the output directory is left to the
 * caller (see `Task`).
 *
 * Its partner is `ReadCommand`, which reads a vector of that layout back into
 * the settings it carries; `ReadBuilt` shows that what is read back is what
 * the options mean (`Effective`).
 */
module Command {
  import opened Wrappers
  import opened Text

  /**
   * The options dictionary, one field per key the builder looks at; `None`
   * is a missing key. Values have the types the application stores
   * (booleans and integers from the form, strings otherwise).
   */
  datatype Options = Options(
    continueFlag: Option<bool>,
    fileAllocation: Option<string>,
    split: Option<int>,
    maxConnectionPerServer: Option<int>,
    maxTries: Option<int>,
    retryWait: Option<int>,
    maxDownloadLimit: Option<string>,
    maxUploadLimit: Option<string>,
    referer: Option<string>,
    userAgent: Option<string>,
    header: Option<string>,
    extraArgs: Option<string>)

  /** `shlex.split`: the tokens of a shell-quoted string, or `None` when it raises. */
  type Tokenizer = string -> Option<seq<string>>

  /** `options.get(key)` is truthy: the key is present with a non-empty string. */
  predicate Given(v: Option<string>) { v.Some? && v.value != "" }

  /** `options.get('continue', True)`. */
  predicate ContinueOn(o: Options) { o.continueFlag.GetOr(true) }

  /** The lines of the `header` option, each stripped, without the blank ones, in order. */
  function KeptHeaders(lines: seq<string>): (r: seq<string>)
    ensures |r| <= |lines|
    ensures forall i :: 0 <= i < |r| ==> Stripped(r[i])
    decreases |lines|
  {
    if lines == [] then []
    else
      var h, rest := Strip(lines[0]), KeptHeaders(lines[1..]);
      if h != [] then StrippedHead(h, rest); [h] + rest else rest
  }

  /** A non-empty string with no white space at either end. */
  predicate Stripped(h: string) { h != [] && !IsSpace(h[0]) && !IsSpace(h[|h| - 1]) }

  lemma StrippedHead(h: string, rest: seq<string>)
    requires h != [] && !IsSpace(h[0]) && !IsSpace(h[|h| - 1])
    requires forall i :: 0 <= i < |rest| ==> Stripped(rest[i])
    ensures forall i :: 0 <= i < |[h] + rest| ==> Stripped(([h] + rest)[i])
  {
    assert Stripped(h);
    forall i | 0 <= i < |[h] + rest| ensures Stripped(([h] + rest)[i]) {
      if i > 0 { assert ([h] + rest)[i] == rest[i - 1]; }
    }
  }

  function HeaderValues(o: Options): seq<string> {
    if Given(o.header) then KeptHeaders(SplitLines(o.header.value)) else []
  }

  /** The tokens of `extra_args`: `shlex.split`, or `str.split()` when that raises. */
  function ExtraTokens(o: Options, tokenize: Tokenizer): seq<string> {
    if Given(o.extraArgs) then
      match tokenize(o.extraArgs.value)
      case Some(ts) => ts
      case None => Words(o.extraArgs.value)
    else []
  }

  /** The named flags the builder writes. */
  datatype Key =
    | FileAllocation | Split | MaxConnections | MaxTries | RetryWait
    | DownloadLimit | UploadLimit | Referer | UserAgent | Header | AllowOverwrite

  /** The flag's name on the command line, dashes included. */
  function Spelling(k: Key): string {
    match k
    case FileAllocation => "--file-allocation"
    case Split => "--split"
    case MaxConnections => "--max-connection-per-server"
    case MaxTries => "--max-tries"
    case RetryWait => "--retry-wait"
    case DownloadLimit => "--max-download-limit"
    case UploadLimit => "--max-upload-limit"
    case Referer => "--referer"
    case UserAgent => "--user-agent"
    case Header => "--header"
    case AllowOverwrite => "--allow-overwrite"
  }

  /** `--name=value`. */
  function Flag(k: Key, value: string): string { Spelling(k) + "=" + value }

  function When(b: bool, xs: seq<string>): seq<string> { if b then xs else [] }

  /**
   * `build_command(aria2_path)` on a task with `url`, `outDir`, `outName` and
   * `o`: the program, the option flags in their fixed order, the overwrite and
   * output arguments, the extra tokens, and the url last.
   */
  function BuildCommand(aria2: string, url: string, outDir: string, outName: string, o: Options,
                        tokenize: Tokenizer): (cmd: seq<string>)
    ensures |cmd| >= 8 && cmd[0] == aria2 && cmd[|cmd| - 1] == url
    ensures cmd[1] == "-c" <==> ContinueOn(o)
  {
    var st := Effective(o);
    assert |Flag(FileAllocation, st.allocation)| > 2;
    [aria2] + FlagArgs(st) + OutputArgs(outDir, outName) + ExtraTokens(o, tokenize) + [url]
  }

  /** Overwrite in place, never rename, write into `outDir`, under `outName` when one is given. */
  function OutputArgs(outDir: string, outName: string): seq<string> {
    [Flag(AllowOverwrite, "true"), "--auto-file-renaming=false", "-d", outDir] + When(outName != "", ["-o", outName])
  }

  /** One `--header=` argument per header (its `ensures` is what `HeadersRead` unfolds). */
  function HeaderFlags(hs: seq<string>): (r: seq<string>)
    ensures |r| == |hs| && forall i :: 0 <= i < |hs| ==> r[i] == Flag(Header, hs[i])
  {
    seq(|hs|, i requires 0 <= i < |hs| => Flag(Header, hs[i]))
  }

  /** The flags that carry `st`, in the builder's order. */
  function FlagArgs(st: Settings): seq<string> {
    When(st.continueOn, ["-c"]) + MainArgs(st)
  }

  function MainArgs(st: Settings): seq<string> {
    [Flag(FileAllocation, st.allocation), Flag(Split, IntToString(st.split)),
     Flag(MaxConnections, IntToString(st.maxConnections))]
    + RetryArgs(st)
  }

  function RetryArgs(st: Settings): seq<string> {
    IntFlag(MaxTries, st.maxTries) + (IntFlag(RetryWait, st.retryWait) + TailArgs(st))
  }

  function TailArgs(st: Settings): seq<string> {
    TextFlag(DownloadLimit, st.downloadLimit) + (TextFlag(UploadLimit, st.uploadLimit) + RequestArgs(st))
  }

  function RequestArgs(st: Settings): seq<string> {
    TextFlag(Referer, st.referer) + (TextFlag(UserAgent, st.userAgent) + HeaderFlags(st.headers))
  }

  function TextFlag(k: Key, v: Option<string>): seq<string> {
    match v case None => [] case Some(t) => [Flag(k, t)]
  }

  function IntFlag(k: Key, v: Option<int>): seq<string> {
    match v case None => [] case Some(n) => [Flag(k, IntToString(n))]
  }

  // ---------------------------------------------------------------------------
  // What the vector says

  /** The settings an aria2c vector carries, with the builder's defaults applied. */
  datatype Settings = Settings(
    continueOn: bool,
    allocation: string,
    split: int,
    maxConnections: int,
    maxTries: Option<int>,
    retryWait: Option<int>,
    downloadLimit: Option<string>,
    uploadLimit: Option<string>,
    referer: Option<string>,
    userAgent: Option<string>,
    headers: seq<string>)

  function IfGiven(v: Option<string>): Option<string> { if Given(v) then v else None }

  /**
   * What the options mean: `-c` unless `continue` is false, allocation
   * `none`, 4 pieces and as many connections as pieces unless set, retry
   * settings when present, limits, referer and user agent when non-empty,
   * and one header per non-blank line.
   */
  function Effective(o: Options): Settings {
    var split := o.split.GetOr(4);
    Settings(ContinueOn(o), o.fileAllocation.GetOr("none"), split, o.maxConnectionPerServer.GetOr(split),
             o.maxTries, o.retryWait, IfGiven(o.maxDownloadLimit), IfGiven(o.maxUploadLimit),
             IfGiven(o.referer), IfGiven(o.userAgent), HeaderValues(o))
  }

  /** A whole invocation: program, settings, output place, extra tokens and url. */
  datatype Invocation = Invocation(program: string, settings: Settings, outDir: string,
                                   outName: Option<string>, extra: seq<string>, url: string)

  /** The invocation a task asks for. */
  function Intended(aria2: string, url: string, outDir: string, outName: string, o: Options,
                    tokenize: Tokenizer): Invocation {
    Invocation(aria2, Effective(o), outDir, if outName != "" then Some(outName) else None,
               ExtraTokens(o, tokenize), url)
  }

  /** The index of the first `=` at or after `i`, or `|arg|`. */
  function EqualsAt(arg: string, i: nat): (e: nat)
    requires i <= |arg|
    ensures i <= e <= |arg|
    ensures e < |arg| ==> arg[e] == '='
    ensures forall j :: i <= j < e ==> arg[j] != '='
    decreases |arg| - i
  {
    if i == |arg| || arg[i] == '=' then i else EqualsAt(arg, i + 1)
  }

  /** The part of `--name=value` before its first `=`, and the part after it. */
  function NameOf(arg: string): string { arg[..EqualsAt(arg, 0)] }

  function ValueOf(arg: string): string {
    var e := EqualsAt(arg, 0);
    if e < |arg| then arg[e + 1..] else ""
  }

  /** The key a flag name spells, if any. */
  function KeyOf(name: string): Option<Key> {
    if name == "--file-allocation" then Some(FileAllocation)
    else if name == "--split" then Some(Split)
    else if name == "--max-connection-per-server" then Some(MaxConnections)
    else if name == "--max-tries" then Some(MaxTries)
    else if name == "--retry-wait" then Some(RetryWait)
    else if name == "--max-download-limit" then Some(DownloadLimit)
    else if name == "--max-upload-limit" then Some(UploadLimit)
    else if name == "--referer" then Some(Referer)
    else if name == "--user-agent" then Some(UserAgent)
    else if name == "--header" then Some(Header)
    else if name == "--allow-overwrite" then Some(AllowOverwrite)
    else None
  }

  /** The key of an argument of the form `--name=value`. */
  function KeyAt(arg: string): Option<Key> { KeyOf(NameOf(arg)) }

  /** `int(s)` for what `str(i)` prints: an optional minus sign and decimal digits. */
  function ParseInt(s: string): Option<int> {
    if |s| > 0 && s[0] == '-' then
      (if |s| > 1 && AllDigits(s[1..]) then Some(0 - DigitsValue(s[1..])) else None)
    else if |s| > 0 && AllDigits(s) then Some(DigitsValue(s))
    else None
  }

  /** The value of a leading flag with key `k`, and the arguments after it. */
  function Optional(args: seq<string>, k: Key): (Option<string>, seq<string>) {
    if |args| > 0 && KeyAt(args[0]) == Some(k) then (Some(ValueOf(args[0])), args[1..]) else (None, args)
  }

  /** As `Optional`, for a flag with an integer value; `None` when the value is not one. */
  function OptionalInt(args: seq<string>, k: Key): Option<(Option<int>, seq<string>)> {
    var (v, rest) := Optional(args, k);
    match v
    case None => Some((None, rest))
    case Some(t) => match ParseInt(t) { case None => None case Some(n) => Some((Some(n), rest)) }
  }

  /** Reads the leading `--header=` flags: their values, and the arguments after them. */
  function ReadHeaders(args: seq<string>): (seq<string>, seq<string>)
    decreases |args|
  {
    if args == [] || KeyAt(args[0]) != Some(Header) then ([], args)
    else var (hs, rest) := ReadHeaders(args[1..]); ([ValueOf(args[0])] + hs, rest)
  }

  /** The flags after the retry settings, as they are read. */
  datatype Tail = Tail(downloadLimit: Option<string>, uploadLimit: Option<string>, referer: Option<string>,
                       userAgent: Option<string>, headers: seq<string>)

  /** Reads the flags after the retry settings, and returns the arguments after them. */
  function ReadTail(args: seq<string>): (Tail, seq<string>) {
    var (dl, a1) := Optional(args, DownloadLimit);
    var (ul, a2) := Optional(a1, UploadLimit);
    var (t, rest) := ReadRequestFlags(a2);
    (t.(downloadLimit := dl, uploadLimit := ul), rest)
  }

  /** Reads the referer, user agent and header flags; the limits are left unset. */
  function ReadRequestFlags(args: seq<string>): (Tail, seq<string>) {
    var (ref, a1) := Optional(args, Referer);
    var (ua, a2) := Optional(a1, UserAgent);
    var (hs, rest) := ReadHeaders(a2);
    (Tail(None, None, ref, ua, hs), rest)
  }

  /** Reads `--max-tries` and `--retry-wait` when present; `None` when a value is not an integer. */
  function ReadRetry(args: seq<string>): Option<(Option<int>, Option<int>, seq<string>)> {
    match OptionalInt(args, MaxTries)
    case None => None
    case Some((tries, a1)) =>
      match OptionalInt(a1, RetryWait)
      case None => None
      case Some((wait, a2)) => Some((tries, wait, a2))
  }

  /** Reads the option flags, in the order the builder writes them, and returns the arguments after them. */
  function ReadFlags(args: seq<string>): Option<(Settings, seq<string>)> {
    var c := |args| > 0 && args[0] == "-c";
    ReadMain(c, if c then args[1..] else args)
  }

  /** Reads the flags after `-c`; `c` says whether it was there. */
  function ReadMain(c: bool, a: seq<string>): Option<(Settings, seq<string>)> {
    if |a| < 3 || KeyAt(a[0]) != Some(FileAllocation) || KeyAt(a[1]) != Some(Split)
       || KeyAt(a[2]) != Some(MaxConnections) then None
    else
      var split, conns, retry := ParseInt(ValueOf(a[1])), ParseInt(ValueOf(a[2])), ReadRetry(a[3..]);
      if split.None? || conns.None? || retry.None? then None
      else
        var (tries, wait, a1) := retry.value;
        var (t, rest) := ReadTail(a1);
        Some((Settings(c, ValueOf(a[0]), split.value, conns.value, tries, wait, t.downloadLimit, t.uploadLimit,
                       t.referer, t.userAgent, t.headers), rest))
  }

  /** Reads an aria2c vector of the builder's layout back into an invocation. */
  function ReadCommand(cmd: seq<string>): Option<Invocation> {
    if |cmd| < 2 then None
    else
      match ReadFlags(cmd[1..|cmd| - 1])
      case None => None
      case Some((st, r)) => ReadOutput(cmd[0], st, r, cmd[|cmd| - 1])
  }

  /** Reads the overwrite and output arguments after the flags, and takes the rest as extra tokens. */
  function ReadOutput(program: string, st: Settings, r: seq<string>, url: string): Option<Invocation> {
    if |r| < 4 || r[0] != Flag(AllowOverwrite, "true") || r[1] != "--auto-file-renaming=false" || r[2] != "-d"
    then None
    else
      var rest := r[4..];
      var named := |rest| >= 2 && rest[0] == "-o";
      Some(Invocation(program, st, r[3], if named then Some(rest[1]) else None,
                      if named then rest[2..] else rest, url))
  }

  /** The first argument, if any, is a flag whose key is in `ks`. */
  predicate Leads(args: seq<string>, ks: set<Key>) {
    args == [] || (KeyAt(args[0]).Some? && KeyAt(args[0]).value in ks)
  }

  // ---------------------------------------------------------------------------
  // Properties

  /** Each header line is kept on its own, stripped, unless it is blank. */
  lemma KeptHeadersOne(line: string)
    ensures KeptHeaders([line]) == (if Strip(line) != "" then [Strip(line)] else [])
  {
    assert [line][1..] == [];
  }

  /** The header lines are kept in order: keeping distributes over concatenation. */
  lemma {:induction false} KeptHeadersAppend(a: seq<string>, b: seq<string>)
    ensures KeptHeaders(a + b) == KeptHeaders(a) + KeptHeaders(b)
    decreases |a|
  {
    if a == [] {
      assert a + b == b;
    } else {
      assert (a + b)[0] == a[0] && (a + b)[1..] == a[1..] + b;
      KeptHeadersAppend(a[1..], b);
    }
  }

  /** Each key's spelling reads back as that key, and has no `=` in it. */
  lemma KeyOfSpelling(k: Key)
    ensures KeyOf(Spelling(k)) == Some(k) && '=' !in Spelling(k)
  {
  }

  /** A flag's key and value are read back from it. */
  lemma FlagParts(k: Key, value: string)
    ensures KeyAt(Flag(k, value)) == Some(k) && ValueOf(Flag(k, value)) == value
  {
    var name, a := Spelling(k), Flag(k, value);
    KeyOfSpelling(k);
    forall j | 0 <= j < |name| ensures a[j] != '=' {
      assert a[j] == name[j];
    }
    EqualsAtIs(a, 0, |name|);
    assert a[..|name|] == name;
    assert a[|name| + 1..] == value;
  }

  lemma EqualsAtIs(s: string, i: nat, e: nat)
    requires i <= e < |s| && s[e] == '='
    requires forall j :: i <= j < e ==> s[j] != '='
    ensures EqualsAt(s, i) == e
    decreases e - i
  {
    if i < e { EqualsAtIs(s, i + 1, e); }
  }

  /** `int(str(i)) == i`. */
  lemma ParseIntOfString(i: int)
    ensures ParseInt(IntToString(i)) == Some(i)
  {
    DigitsValueOfNatToString(if i < 0 then -i else i);
    if i < 0 {
      var s := IntToString(i);
      assert s[1..] == NatToString(-i);
    } else {
      assert NatToString(i)[0] != '-';
    }
  }

  lemma TextFlagRead(k: Key, v: Option<string>, rest: seq<string>, later: set<Key>)
    requires Leads(rest, later) && k !in later
    ensures Optional(TextFlag(k, v) + rest, k) == (v, rest)
    ensures Leads(TextFlag(k, v) + rest, later + {k})
  {
    if v.Some? {
      FlagParts(k, v.value);
      assert (TextFlag(k, v) + rest)[0] == Flag(k, v.value);
      assert (TextFlag(k, v) + rest)[1..] == rest;
    } else {
      assert TextFlag(k, v) + rest == rest;
    }
  }

  lemma IntFlagRead(k: Key, v: Option<int>, rest: seq<string>, later: set<Key>)
    requires Leads(rest, later) && k !in later
    ensures OptionalInt(IntFlag(k, v) + rest, k) == Some((v, rest))
    ensures Leads(IntFlag(k, v) + rest, later + {k})
  {
    if v.Some? {
      FlagParts(k, IntToString(v.value));
      ParseIntOfString(v.value);
      assert (IntFlag(k, v) + rest)[0] == Flag(k, IntToString(v.value));
      assert (IntFlag(k, v) + rest)[1..] == rest;
    } else {
      assert IntFlag(k, v) + rest == rest;
    }
  }

  lemma {:induction false} HeadersRead(hs: seq<string>, rest: seq<string>, later: set<Key>)
    requires Leads(rest, later) && Header !in later
    ensures ReadHeaders(HeaderFlags(hs) + rest) == (hs, rest)
    ensures Leads(HeaderFlags(hs) + rest, later + {Header})
    decreases |hs|
  {
    if hs == [] {
      assert HeaderFlags(hs) + rest == rest;
    } else {
      var a := HeaderFlags(hs) + rest;
      FlagParts(Header, hs[0]);
      assert a[0] == Flag(Header, hs[0]);
      assert a[1..] == HeaderFlags(hs[1..]) + rest;
      HeadersRead(hs[1..], rest, later);
      assert [hs[0]] + hs[1..] == hs;
    }
  }

  lemma AppendAssoc(a: seq<string>, b: seq<string>, c: seq<string>)
    ensures (a + b) + c == a + (b + c)
  {
  }

  const RequestKeys: set<Key> := {AllowOverwrite, Header, UserAgent, Referer}

  const TailKeys: set<Key> := RequestKeys + {UploadLimit, DownloadLimit}

  /** The referer, user agent and headers are read back, up to a `--allow-overwrite` flag. */
  lemma RequestRead(st: Settings, rest: seq<string>)
    requires Leads(rest, {AllowOverwrite})
    ensures ReadRequestFlags(RequestArgs(st) + rest) == (Tail(None, None, st.referer, st.userAgent, st.headers), rest)
    ensures Leads(RequestArgs(st) + rest, RequestKeys)
  {
    var n2: set<Key> := {AllowOverwrite};
    HeadersRead(st.headers, rest, n2);
    var h := HeaderFlags(st.headers);
    var n1 := n2 + {Header};
    TextFlagRead(UserAgent, st.userAgent, h + rest, n1);
    var t2 := TextFlag(UserAgent, st.userAgent);
    TextFlagRead(Referer, st.referer, t2 + (h + rest), n1 + {UserAgent});
    var t1 := TextFlag(Referer, st.referer);
    AppendAssoc(t2, h, rest);
    AppendAssoc(t1, t2 + h, rest);
  }

  /** The flags after the retry settings are read back, up to a `--allow-overwrite` flag. */
  lemma TailRead(st: Settings, rest: seq<string>)
    requires Leads(rest, {AllowOverwrite})
    ensures ReadTail(TailArgs(st) + rest)
            == (Tail(st.downloadLimit, st.uploadLimit, st.referer, st.userAgent, st.headers), rest)
    ensures Leads(TailArgs(st) + rest, TailKeys)
  {
    RequestRead(st, rest);
    var r := RequestArgs(st);
    TextFlagRead(UploadLimit, st.uploadLimit, r + rest, RequestKeys);
    var t2 := TextFlag(UploadLimit, st.uploadLimit);
    TextFlagRead(DownloadLimit, st.downloadLimit, t2 + (r + rest), RequestKeys + {UploadLimit});
    var t1 := TextFlag(DownloadLimit, st.downloadLimit);
    AppendAssoc(t2, r, rest);
    AppendAssoc(t1, t2 + r, rest);
  }

  lemma RetryRead(st: Settings, rest: seq<string>)
    requires Leads(rest, {AllowOverwrite})
    ensures ReadRetry(RetryArgs(st) + rest) == Some((st.maxTries, st.retryWait, TailArgs(st) + rest))
  {
    TailRead(st, rest);
    var t := TailArgs(st);
    IntFlagRead(RetryWait, st.retryWait, t + rest, TailKeys);
    var w := IntFlag(RetryWait, st.retryWait);
    IntFlagRead(MaxTries, st.maxTries, w + (t + rest), TailKeys + {RetryWait});
    AppendAssoc(w, t, rest);
    AppendAssoc(IntFlag(MaxTries, st.maxTries), w + t, rest);
  }

  /** The three fixed flags are read by name, whatever their values. */
  lemma MainShape(c: bool, alloc: string, sp: string, cn: string, r: seq<string>,
                  split: int, conns: int, tries: Option<int>, wait: Option<int>, a1: seq<string>,
                  t: Tail, rest: seq<string>)
    requires ParseInt(sp) == Some(split) && ParseInt(cn) == Some(conns)
    requires ReadRetry(r) == Some((tries, wait, a1)) && ReadTail(a1) == (t, rest)
    ensures ReadMain(c, [Flag(FileAllocation, alloc), Flag(Split, sp), Flag(MaxConnections, cn)] + r)
            == Some((Settings(c, alloc, split, conns, tries, wait, t.downloadLimit, t.uploadLimit,
                              t.referer, t.userAgent, t.headers), rest))
  {
    var a := [Flag(FileAllocation, alloc), Flag(Split, sp), Flag(MaxConnections, cn)] + r;
    FlagParts(FileAllocation, alloc);
    FlagParts(Split, sp);
    FlagParts(MaxConnections, cn);
    assert a[3..] == r;
  }

  lemma MainRead(st: Settings, rest: seq<string>)
    requires Leads(rest, {AllowOverwrite})
    ensures ReadMain(st.continueOn, MainArgs(st) + rest) == Some((st, rest))
    ensures MainArgs(st) + rest != [] && (MainArgs(st) + rest)[0] != "-c"
  {
    RetryRead(st, rest);
    TailRead(st, rest);
    ParseIntOfString(st.split);
    ParseIntOfString(st.maxConnections);
    var sp, cn := IntToString(st.split), IntToString(st.maxConnections);
    var fixed := [Flag(FileAllocation, st.allocation), Flag(Split, sp), Flag(MaxConnections, cn)];
    MainShape(st.continueOn, st.allocation, sp, cn, RetryArgs(st) + rest, st.split, st.maxConnections,
              st.maxTries, st.retryWait, TailArgs(st) + rest,
              Tail(st.downloadLimit, st.uploadLimit, st.referer, st.userAgent, st.headers), rest);
    AppendAssoc(fixed, RetryArgs(st), rest);
    assert |fixed[0]| > 2;
  }

  /** Every setting is read back from the flags that carry it, up to a `--allow-overwrite` flag. */
  lemma FlagsRead(st: Settings, rest: seq<string>)
    requires Leads(rest, {AllowOverwrite})
    ensures ReadFlags(FlagArgs(st) + rest) == Some((st, rest))
  {
    MainRead(st, rest);
    ContinueRead(st.continueOn, MainArgs(st) + rest);
    AppendAssoc(When(st.continueOn, ["-c"]), MainArgs(st), rest);
  }

  /** `-c` is recognised exactly when it was written. */
  lemma ContinueRead(c: bool, a: seq<string>)
    requires a != [] && a[0] != "-c"
    ensures ReadFlags(When(c, ["-c"]) + a) == ReadMain(c, a)
  {
    if c { assert (["-c"] + a)[1..] == a; } else { assert When(c, ["-c"]) + a == a; }
  }

  /**
   * The vector reads back as the invocation the task asks for: the program,
   * the options with the builder's defaults, the output place, the extra
   * tokens and the url. When no file name is given and the extra tokens
   * start with `-o` and a value, aria2c itself would read those as the file
   * name, so that case is excluded.
   */
  lemma ReadBuilt(aria2: string, url: string, outDir: string, outName: string, o: Options, tokenize: Tokenizer)
    requires var e := ExtraTokens(o, tokenize); outName != "" || !(|e| >= 2 && e[0] == "-o")
    ensures ReadCommand(BuildCommand(aria2, url, outDir, outName, o, tokenize))
            == Some(Intended(aria2, url, outDir, outName, o, tokenize))
  {
    ReadLayout(aria2, Effective(o), outDir, outName, ExtraTokens(o, tokenize), url);
  }

  /** Any settings, output place, extra tokens and url are read back from the builder's layout. */
  lemma ReadLayout(aria2: string, st: Settings, outDir: string, outName: string, e: seq<string>, url: string)
    requires outName != "" || !(|e| >= 2 && e[0] == "-o")
    ensures ReadCommand([aria2] + FlagArgs(st) + OutputArgs(outDir, outName) + e + [url])
            == Some(Invocation(aria2, st, outDir, if outName != "" then Some(outName) else None, e, url))
  {
    OutputLeads(outDir, outName, e);
    FlagsRead(st, OutputArgs(outDir, outName) + e);
    var f, out := FlagArgs(st), OutputArgs(outDir, outName);
    CommandShape(aria2, f + (out + e), st, outDir, outName, e, url);
    AppendAssoc([aria2], f, out);
    AppendAssoc([aria2], f + out, e);
    AppendAssoc(f, out, e);
  }

  lemma OutputLeads(outDir: string, outName: string, e: seq<string>)
    ensures Leads(OutputArgs(outDir, outName) + e, {AllowOverwrite})
  {
    FlagParts(AllowOverwrite, "true");
    assert (OutputArgs(outDir, outName) + e)[0] == Flag(AllowOverwrite, "true");
  }

  /** Whatever flags read as `st`, the arguments around them are read by position. */
  lemma CommandShape(aria2: string, mid: seq<string>, st: Settings, outDir: string, outName: string,
                     e: seq<string>, url: string)
    requires outName != "" || !(|e| >= 2 && e[0] == "-o")
    requires ReadFlags(mid) == Some((st, OutputArgs(outDir, outName) + e))
    ensures ReadCommand([aria2] + mid + [url])
            == Some(Invocation(aria2, st, outDir, if outName != "" then Some(outName) else None, e, url))
  {
    var cmd := [aria2] + mid + [url];
    assert cmd[1..|cmd| - 1] == mid;
    OutputRead(aria2, st, outDir, outName, e, url);
  }

  lemma OutputRead(aria2: string, st: Settings, outDir: string, outName: string, e: seq<string>, url: string)
    requires outName != "" || !(|e| >= 2 && e[0] == "-o")
    ensures ReadOutput(aria2, st, OutputArgs(outDir, outName) + e, url)
            == Some(Invocation(aria2, st, outDir, if outName != "" then Some(outName) else None, e, url))
  {
    var r := OutputArgs(outDir, outName) + e;
    assert r[4..] == When(outName != "", ["-o", outName]) + e;
    if outName != "" {
      assert r[4..][2..] == e;
    }
  }
}
