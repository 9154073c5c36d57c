/** The `.mod` descriptor of a mod (src/modfile.rs): the fields read from
  * it, the checks of `picture` and `replace_path`, and the strings derived
  * from it. Where the mod directory lies on disk is not modelled. */
module ModFile {
  import opened Base
  import opened Report
  import opened Tree

  datatype ModFile = ModFile(
    block: Block, name: Option<Token>, path: Option<Token>, replacePaths: seq<Token>,
    version: Option<Token>, tags: Option<seq<Token>>, supportedVersion: Option<Token>,
    picture: Option<Token>)

  /** `get_field_list`: the values of a block field. */
  function FieldList(block: Block, name: string): Option<seq<Token>>
  {
    match GetFieldBlock(block, name)
    case Some(b) => Some(Values(b.items))
    case None => None
  }

  const HistoryMessage := "replace_path only replaces the specific directory, not any directories below it"
  const HistoryInfo := "So replace_path = history is not useful, you should replace the paths under it. However, replace_path = history/province_mapping will crash the game."
  const CrashMessage := "replace_path of history/province_mapping will crash the game"
  const CrashInfo := "Replace the files in it with empty files, instead."

  /** The check of one `replace_path`. */
  function ReplacePathCheck(path: Token): (r: seq<LogReport>)
    ensures |r| <= 1
    ensures |r| == 1 <==> path.Is("history") || path.Is("history/province_mapping")
    ensures |r| == 1 && path.Is("history") ==> IsReport(r[0], Info, Unneeded, path.loc)
    ensures |r| == 1 && !path.Is("history") ==> IsReport(r[0], Error, Crash, path.loc)
  {
    if path.Is("history") then
      [AdviceInfoAt(path.loc, Unneeded, HistoryMessage, HistoryInfo)]
    else if path.Is("history/province_mapping") then
      [ErrorInfoAt(path.loc, Crash, CrashMessage, CrashInfo)]
    else []
  }

  function ReplacePathReports(paths: seq<Token>): seq<LogReport>
  {
    if |paths| == 0 then []
    else ReplacePathReports(paths[..|paths| - 1]) + ReplacePathCheck(paths[|paths| - 1])
  }

  /** The check of `picture`: Steam shows only thumbnail.png. */
  function PictureCheck(picture: Option<Token>): (r: seq<LogReport>)
    ensures |r| <= 1
    ensures |r| == 1 <==> picture.Some? && !picture.value.Is("thumbnail.png")
    ensures |r| == 1 ==> IsReport(r[0], Warning, Packaging, picture.value.loc)
  {
    match picture
    case Some(p) =>
      if !p.Is("thumbnail.png") then [WarnAt(p.loc, Packaging, "Steam ignores picture= and always uses thumbnail.png.")]
      else []
    case None => []
  }

  /** `validate_modfile`: the descriptor's fields and the reports about them. */
  function ValidateModfile(block: Block): (r: Checked<ModFile>)
    ensures r.value.block == block
    ensures r.value.name == GetFieldValue(block, "name") && r.value.path == GetFieldValue(block, "path")
    ensures r.value.replacePaths == GetFieldValues(block, "replace_path")
    ensures r.value.picture == GetFieldValue(block, "picture")
    ensures r.value.version == GetFieldValue(block, "version")
    ensures r.value.supportedVersion == GetFieldValue(block, "supported_version")
    ensures r.value.tags == FieldList(block, "tags")
    ensures r.reports == PictureCheck(r.value.picture) + ReplacePathReports(r.value.replacePaths)
  {
    var m := ModFile(block, GetFieldValue(block, "name"), GetFieldValue(block, "path"),
                     GetFieldValues(block, "replace_path"), GetFieldValue(block, "version"),
                     FieldList(block, "tags"), GetFieldValue(block, "supported_version"),
                     GetFieldValue(block, "picture"));
    Checked(m, PictureCheck(m.picture) + ReplacePathReports(m.replacePaths))
  }

  /** One report at most per path. */
  lemma {:induction false} ReplacePathCount(paths: seq<Token>)
    ensures |ReplacePathReports(paths)| <= |paths|
  {
    if |paths| > 0 {
      ReplacePathCount(paths[..|paths| - 1]);
    }
  }

  /** Paths other than `history` and `history/province_mapping` draw no report. */
  lemma {:induction false} ReplacePathQuiet(paths: seq<Token>)
    requires forall i :: 0 <= i < |paths| ==> !paths[i].Is("history") && !paths[i].Is("history/province_mapping")
    ensures ReplacePathReports(paths) == []
  {
    if |paths| > 0 {
      var init := paths[..|paths| - 1];
      assert forall i :: 0 <= i < |init| ==> init[i] == paths[i];
      ReplacePathQuiet(init);
    }
  }

  /** Which report the path at `i` caused. */
  ghost predicate CausedBy(r: LogReport, paths: seq<Token>, i: int)
    requires 0 <= i < |paths|
  {
    (paths[i].Is("history") && IsReport(r, Info, Unneeded, paths[i].loc))
    || (paths[i].Is("history/province_mapping") && IsReport(r, Error, Crash, paths[i].loc))
  }

  /** Every report comes from a `history` path (advice that it is unneeded)
    * or a `history/province_mapping` path (an error: it crashes the game). */
  lemma {:induction false} ReplacePathSources(paths: seq<Token>, r: LogReport)
    requires r in ReplacePathReports(paths)
    ensures exists i :: 0 <= i < |paths| && CausedBy(r, paths, i)
  {
    var n := |paths| - 1;
    var init := paths[..n];
    if r in ReplacePathReports(init) {
      ReplacePathSources(init, r);
      var i :| 0 <= i < |init| && CausedBy(r, init, i);
      assert init[i] == paths[i];
      assert CausedBy(r, paths, i);
    } else {
      assert r in ReplacePathCheck(paths[n]);
      assert CausedBy(r, paths, n);
    }
  }

  /** A `replace_path` that crashes the game is always reported. */
  lemma {:induction false} CrashReported(paths: seq<Token>, i: nat)
    requires i < |paths| && paths[i].Is("history/province_mapping")
    ensures exists r :: r in ReplacePathReports(paths) && IsReport(r, Error, Crash, paths[i].loc)
  {
    if i < |paths| - 1 {
      CrashReported(paths[..|paths| - 1], i);
    } else {
      assert ReplacePathCheck(paths[i])[0] in ReplacePathReports(paths);
    }
  }

  /** `replace_paths`: the paths in their order, one per field. */
  function ReplacePaths(m: ModFile): (r: seq<string>)
    ensures |r| == |m.replacePaths|
    ensures forall i :: 0 <= i < |r| ==> r[i] == m.replacePaths[i].text
  {
    seq(|m.replacePaths|, i requires 0 <= i < |m.replacePaths| => m.replacePaths[i].text)
  }

  /** `display_name_ext`: the name in quotes after a space, or nothing. */
  function DisplayNameExt(m: ModFile): (r: string)
    ensures m.name.None? <==> r == ""
    ensures m.name.Some? ==> r == " \"" + m.name.value.text + "\""
  {
    match m.name
    case Some(n) => " \"" + n.text + "\""
    case None => ""
  }
}
