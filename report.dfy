/** The diagnostics sink of src/report/errors.rs: report values, the
  * "from here" expansion of macro links, and the `Errors` object that
  * deduplicates reports before writing them. */
module Report {
  import opened Base

  datatype ErrorKey =
    | Choice | Config | Crash | DuplicateItem | Encoding | EventNamespace
    | MissingFile | MissingItem | MissingLocalization | Packaging | ParseError
    | Range | ReadError | Scopes | Structure | UnknownField | Unneeded | Validation

  datatype Severity = Info | Warning | Error

  /** One location a report points at, with an optional note. */
  datatype PointedMessage = PointedMessage(location: Loc, length: nat, msg: Option<string>)

  datatype LogReport = LogReport(
    severity: Severity, key: ErrorKey, msg: string, info: Option<string>,
    pointers: seq<PointedMessage>)

  /** A result together with the reports emitted while computing it. */
  datatype Checked<T> = Checked(value: T, reports: seq<LogReport>)

  /** A report of the given key and severity pointing only at `loc`. */
  predicate IsReport(r: LogReport, severity: Severity, key: ErrorKey, loc: Loc)
  {
    r.severity == severity && r.key == key && |r.pointers| == 1 && r.pointers[0].location == loc
  }

  function Pointer(loc: Loc): PointedMessage { PointedMessage(loc, 1, None) }

  function InfoOf(info: string): Option<string> { if info == "" then None else Some(info) }

  /** The report builders `error`, `error_info`, `warn`, `warn2`, `warn_info`,
    * `advice` and `advice_info`: each points at its location with length 1. */
  function ErrorAt(loc: Loc, key: ErrorKey, msg: string): LogReport
  {
    LogReport(Error, key, msg, None, [Pointer(loc)])
  }

  function ErrorInfoAt(loc: Loc, key: ErrorKey, msg: string, info: string): LogReport
  {
    LogReport(Error, key, msg, InfoOf(info), [Pointer(loc)])
  }

  function WarnAt(loc: Loc, key: ErrorKey, msg: string): LogReport
  {
    LogReport(Warning, key, msg, None, [Pointer(loc)])
  }

  function Warn2At(loc: Loc, key: ErrorKey, msg: string, loc2: Loc, msg2: string): LogReport
  {
    LogReport(Warning, key, msg, None, [Pointer(loc), PointedMessage(loc2, 1, Some(msg2))])
  }

  function WarnInfoAt(loc: Loc, key: ErrorKey, msg: string, info: string): LogReport
  {
    LogReport(Warning, key, msg, InfoOf(info), [Pointer(loc)])
  }

  function AdviceAt(loc: Loc, key: ErrorKey, msg: string): LogReport
  {
    LogReport(Info, key, msg, None, [Pointer(loc)])
  }

  function AdviceInfoAt(loc: Loc, key: ErrorKey, msg: string, info: string): LogReport
  {
    LogReport(Info, key, msg, InfoOf(info), [Pointer(loc)])
  }

  /** The duplicate-definition report of the registries: it points at the new
    * definition and at the one it replaces. */
  function DupError(key: Token, other: Token, what: string): LogReport
  {
    Warn2At(key.loc, DuplicateItem, what + " is redefined by another " + what, other.loc,
            "the other one is here")
  }

  // ------------------------------------------------------ link expansion

  /** The "from here" entries for the links of `loc`, nearest link first. */
  function FromHere(loc: Loc): seq<PointedMessage>
    decreases loc
  {
    match loc.link
    case None => []
    case Some(l) => [PointedMessage(l, 1, Some("from here"))] + FromHere(l)
  }

  /** How many links `loc` has before the chain ends. */
  function ChainLength(loc: Loc): nat
    decreases loc
  {
    match loc.link
    case None => 0
    case Some(l) => 1 + ChainLength(l)
  }

  /** The pointer list after expansion: each original pointer in order,
    * followed by the "from here" entries of its chain. */
  function Expand(ps: seq<PointedMessage>): seq<PointedMessage>
  {
    if |ps| == 0 then [] else Expand(ps[..|ps| - 1]) + [ps[|ps| - 1]] + FromHere(ps[|ps| - 1].location)
  }

  function TotalChain(ps: seq<PointedMessage>): nat
  {
    if |ps| == 0 then 0 else TotalChain(ps[..|ps| - 1]) + ChainLength(ps[|ps| - 1].location)
  }

  /** Following `link` from `loc` `n` times. */
  function LinkAt(loc: Loc, n: nat): Option<Loc>
    decreases n
  {
    if n == 0 then Some(loc)
    else match loc.link
      case None => None
      case Some(l) => LinkAt(l, n - 1)
  }

  /** The chain of one location: its i-th entry points, with length 1 and the
    * note "from here", at the location reached after i + 1 links. */
  lemma {:induction false} FromHereShape(loc: Loc)
    ensures |FromHere(loc)| == ChainLength(loc)
    ensures forall i :: 0 <= i < |FromHere(loc)| ==>
      FromHere(loc)[i].length == 1 && FromHere(loc)[i].msg == Some("from here")
      && LinkAt(loc, i + 1) == Some(FromHere(loc)[i].location)
    decreases loc
  {
    match loc.link
    case None =>
    case Some(l) =>
      FromHereShape(l);
      forall i | 0 < i < |FromHere(loc)|
        ensures LinkAt(loc, i + 1) == Some(FromHere(loc)[i].location)
      {
        assert FromHere(loc)[i] == FromHere(l)[i - 1];
      }
  }

  /** After expansion the pointer count is the original count plus the
    * total chain length, and every added entry has length 1. */
  lemma {:induction false} ExpandCount(ps: seq<PointedMessage>)
    ensures |Expand(ps)| == |ps| + TotalChain(ps)
  {
    if |ps| > 0 {
      ExpandCount(ps[..|ps| - 1]);
      FromHereShape(ps[|ps| - 1].location);
    }
  }

  /** Expansion works pointer by pointer: expanding a concatenation is
    * concatenating the expansions, so the original order is kept. */
  lemma {:induction false} ExpandAppend(a: seq<PointedMessage>, b: seq<PointedMessage>)
    ensures Expand(a + b) == Expand(a) + Expand(b)
    decreases |b|
  {
    if |b| > 0 {
      var c := b[..|b| - 1];
      assert (a + b)[..|a + b| - 1] == a + c;
      var x := b[|b| - 1];
      assert (a + b)[|a + b| - 1] == x;
      ExpandAppend(a, c);
      calc {
        Expand(a + b);
        Expand(a + c) + [x] + FromHere(x.location);
        Expand(a) + Expand(c) + [x] + FromHere(x.location);
        Expand(a) + (Expand(c) + [x] + FromHere(x.location));
        Expand(a) + Expand(b);
      }
    } else {
      assert a + b == a;
    }
  }

  lemma ExpandOne(p: PointedMessage)
    ensures Expand([p]) == [p] + FromHere(p.location)
  {
  }

  /** `recursive_pointed_msg_expansion`: appends the chain of `pointer` to
    * `vec`, each link inserted in front of the links beyond it. */
  method RecursiveExpansion(vec: seq<PointedMessage>, pointer: PointedMessage)
    returns (r: seq<PointedMessage>)
    ensures r == vec + FromHere(pointer.location)
    decreases pointer.location
  {
    r := vec;
    match pointer.location.link {
      case None =>
      case Some(link) =>
        var fromHere := PointedMessage(link, 1, Some("from here"));
        var index := |r|;
        r := RecursiveExpansion(r, fromHere);
        r := r[..index] + [fromHere] + r[index..];
    }
  }

  // ---------------------------------------------------------- the sink

  /** The dedup key of a report: its primary location, key, message, and the
    * locations of its second and third pointers. */
  datatype ErrorRecord = ErrorRecord(loc: Loc, key: ErrorKey, msg: string,
                                     loc2: Option<Loc>, loc3: Option<Loc>)

  function PointerLoc(ps: seq<PointedMessage>, i: nat): Option<Loc>
  {
    if i < |ps| then Some(ps[i].location) else None
  }

  function RecordOf(report: LogReport): ErrorRecord
    requires |report.pointers| > 0
  {
    ErrorRecord(report.pointers[0].location, report.key, report.msg,
                PointerLoc(report.pointers, 1), PointerLoc(report.pointers, 2))
  }

  /** What the sink has written: a full report, or the one-line abbreviated
    * form `(key) text`. */
  datatype Output = Full(report: LogReport) | Abbreviated(key: ErrorKey, text: string)

  datatype SinkState = SinkState(seen: set<ErrorRecord>, written: seq<Output>)

  /** `push_report` on values: filtered out or already seen reports change nothing. */
  function Push(s: SinkState, report: LogReport, allowed: bool): (t: SinkState)
    requires |report.pointers| > 0
  {
    if !allowed || RecordOf(report) in s.seen then s
    else SinkState(s.seen + {RecordOf(report)}, s.written + [Full(report)])
  }

  /** A report is written at most once however often it is pushed, and it is
    * seen afterwards whenever the filter allows it. */
  lemma PushIdempotent(s: SinkState, report: LogReport, allowed: bool)
    requires |report.pointers| > 0
    ensures Push(Push(s, report, allowed), report, allowed) == Push(s, report, allowed)
    ensures s.seen <= Push(s, report, allowed).seen
    ensures allowed ==> RecordOf(report) in Push(s, report, allowed).seen
    ensures |Push(s, report, allowed).written| <= |s.written| + 1
  {
  }

  /** Two reports that differ only beyond their third pointer, or in severity
    * or info, share a record: the second is suppressed. */
  lemma SameRecordSuppressed(s: SinkState, r1: LogReport, r2: LogReport)
    requires |r1.pointers| > 0 && |r2.pointers| > 0 && RecordOf(r1) == RecordOf(r2)
    ensures Push(Push(s, r1, true), r2, true) == Push(s, r1, true)
  {
  }

  class Errors {
    var seen: set<ErrorRecord>
    var written: seq<Output>
    var maxLineLength: Option<nat>
    /** The contents of the files reports point into, by kind and path, as lines. */
    var files: map<(FileKind, string), seq<string>>
    /** The report filter's decision (`should_print_report`). */
    const allows: LogReport -> bool

    constructor (allows: LogReport -> bool, files: map<(FileKind, string), seq<string>>)
      ensures this.allows == allows && this.files == files
      ensures seen == {} && written == [] && maxLineLength == None
    {
      this.allows := allows;
      this.files := files;
      seen := {};
      written := [];
      maxLineLength := None;
    }

    function State(): SinkState reads this { SinkState(seen, written) }

    /** `get_line`: the text of the line a location points at; line 0 means
      * "the whole file" and has no line. */
    function GetLine(loc: Loc): (r: Option<string>)
      reads this
      ensures loc.line == 0 ==> r.None?
      ensures r.Some? ==> ((loc.kind, loc.path) in files && 1 <= loc.line <= |files[(loc.kind, loc.path)]|
                            && r.value == files[(loc.kind, loc.path)][loc.line - 1])
    {
      if loc.line == 0 then None
      else if (loc.kind, loc.path) in files && loc.line <= |files[(loc.kind, loc.path)]| then
        Some(files[(loc.kind, loc.path)][loc.line - 1])
      else None
    }

    method PushReport(report: LogReport)
      requires |report.pointers| > 0
      modifies this`seen, this`written
      ensures State() == Push(old(State()), report, allows(report))
      ensures old(seen) <= seen
    {
      if !allows(report) {
        return;
      }
      var index := RecordOf(report);
      if index in seen {
        return;
      }
      seen := seen + {index};
      written := written + [Full(report)];
    }

    /** `log_abbreviated`: a whole-file location prints its path, any other
      * prints its line if that can be read. */
    method LogAbbreviated(loc: Loc, key: ErrorKey)
      modifies this`written
      ensures written == old(written) + (
        if loc.line == 0 then [Abbreviated(key, loc.path)]
        else if GetLine(loc).Some? then [Abbreviated(key, GetLine(loc).value)]
        else [])
    {
      if loc.line == 0 {
        written := written + [Abbreviated(key, loc.path)];
      } else {
        var line := GetLine(loc);
        if line.Some? {
          written := written + [Abbreviated(key, line.value)];
        }
      }
    }

    /** `push_abbreviated`: deduplicates on (loc, key, "", None, None) and
      * bypasses the filter. */
    method PushAbbreviated(loc: Loc, key: ErrorKey)
      modifies this`seen, this`written
      ensures ErrorRecord(loc, key, "", None, None) in old(seen) ==>
                seen == old(seen) && written == old(written)
      ensures ErrorRecord(loc, key, "", None, None) !in old(seen) ==>
                seen == old(seen) + {ErrorRecord(loc, key, "", None, None)}
                && written == old(written) + (
                     if loc.line == 0 then [Abbreviated(key, loc.path)]
                     else if GetLine(loc).Some? then [Abbreviated(key, GetLine(loc).value)]
                     else [])
    {
      var index := ErrorRecord(loc, key, "", None, None);
      if index in seen {
        return;
      }
      seen := seen + {index};
      LogAbbreviated(loc, key);
    }

    /** `log`: expands every pointer's link chain, then pushes the report. */
    method Log(report: LogReport)
      requires |report.pointers| > 0
      modifies this`seen, this`written
      ensures State() == Push(old(State()), report.(pointers := Expand(report.pointers)),
                              allows(report.(pointers := Expand(report.pointers))))
    {
      var ps := report.pointers;
      var vec: seq<PointedMessage> := [];
      var i := 0;
      while i < |ps|
        invariant 0 <= i <= |ps|
        invariant vec == Expand(ps[..i])
        invariant seen == old(seen) && written == old(written)
      {
        var pointer := ps[i];
        var index := |vec|;
        vec := RecursiveExpansion(vec, pointer);
        vec := vec[..index] + [pointer] + vec[index..];
        assert ps[..i + 1][..i] == ps[..i];
        i := i + 1;
      }
      assert ps[..i] == ps;
      assert vec == Expand(report.pointers);
      ExpandCount(ps);
      PushReport(report.(pointers := vec));
    }

    method SetMaxLineLength(n: nat)
      modifies this`maxLineLength
      ensures n == 0 ==> maxLineLength == None
      ensures n > 0 ==> maxLineLength == Some(n)
    {
      maxLineLength := if n == 0 then None else Some(n);
    }
  }
}
