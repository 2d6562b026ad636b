/**
 * Helpers both chat controllers and both menus share: the prompt line showing the working
 * directory, the comma-separated path list, and the bounded file-browsing loop.
 */
module Workspace {
  import opened Text

  // ---------------------------------------------------------------------------------------------
  // The working directory shown before each prompt

  const Folder := "\U{1F4C1} "

  /** `formatCwd`: a cwd under the home directory is shown as `~` and the rest of it. */
  function FormatCwd(cwd: string, home: string): (shown: string)
    ensures StartsWith(shown, Folder)
    ensures StartsWith(cwd, home) ==> shown[|Folder|..] == "~" + cwd[|home|..]
    ensures !StartsWith(cwd, home) ==> shown[|Folder|..] == cwd
  {
    if StartsWith(cwd, home) then Folder + "~" + cwd[|home|..] else Folder + cwd
  }

  /** Under the home directory, the home directory and the text after `~` give back the working directory. */
  lemma FormatCwdRecovers(cwd: string, home: string)
    requires StartsWith(cwd, home)
    ensures home + FormatCwd(cwd, home)[|Folder| + 1..] == cwd
  {
    var shown := FormatCwd(cwd, home);
    assert shown[|Folder|..] == "~" + cwd[|home|..];
    assert shown[|Folder| + 1..] == cwd[|home|..];
    assert cwd == cwd[..|home|] + cwd[|home|..];
  }

  // ---------------------------------------------------------------------------------------------
  // Comma-separated paths

  /** `text.split(',').map(p => resolve(cwd, p))`. */
  function GlobPaths(text: string, cwd: string, resolve: seq<string> -> string): (paths: seq<string>)
    ensures |paths| == |Split(text, ',')|
    ensures forall k :: 0 <= k < |paths| ==> paths[k] == resolve([cwd, Split(text, ',')[k]])
  {
    var parts := Split(text, ',');
    seq(|parts|, k requires 0 <= k < |parts| => resolve([cwd, parts[k]]))
  }

  /** The pieces resolved are exactly the text between commas, in order: joining them gives the input. */
  lemma GlobPieces(text: string)
    ensures Join(Split(text, ','), ",") == text
    ensures forall k :: 0 <= k < |Split(text, ',')| ==> ',' !in Split(text, ',')[k]
  {
    JoinSplit(text, ',');
  }

  // ---------------------------------------------------------------------------------------------
  // The browse loop

  const MaxFiles := 10

  /** What one run of the file selector returned. */
  datatype Pick = Picked(path: string) | Canceled

  /** The paths picked before the first cancel. */
  function BeforeCancel(picks: seq<Pick>): seq<string> {
    if picks == [] || picks[0].Canceled? then [] else [picks[0].path] + BeforeCancel(picks[1..])
  }

  /** `selected` extended by the paths it does not already hold, in first-pick order. */
  function DedupInto(selected: seq<string>, paths: seq<string>): seq<string>
    decreases |paths|
  {
    if paths == [] then selected
    else DedupInto(if paths[0] in selected then selected else selected + [paths[0]], paths[1..])
  }

  predicate Distinct(s: seq<string>) {
    forall i, j :: 0 <= i < j < |s| ==> s[i] != s[j]
  }

  /** The selection loop as a value: it stops at ten paths, at a cancel, or when the picks run out. */
  function SelectFrom(picks: seq<Pick>, selected: seq<string>): seq<string> {
    if |selected| >= MaxFiles || picks == [] || picks[0].Canceled? then selected
    else SelectFrom(picks[1..], if picks[0].path in selected then selected else selected + [picks[0].path])
  }

  /** The browse loop: ask for one more file while fewer than ten are selected. */
  method BrowseSelection(picks: seq<Pick>) returns (selected: seq<string>)
    ensures selected == SelectFrom(picks, [])
  {
    selected := [];
    var i := 0;
    while |selected| < MaxFiles && i < |picks|
      invariant 0 <= i <= |picks|
      invariant SelectFrom(picks[i..], selected) == SelectFrom(picks, [])
    {
      assert picks[i..][0] == picks[i] && picks[i..][1..] == picks[i + 1..];
      match picks[i] {
        case Canceled =>
          return;
        case Picked(path) =>
          if path !in selected {
            selected := selected + [path];
          }
      }
      i := i + 1;
    }
  }

  /** Never more than ten paths, none twice. */
  lemma {:induction false} SelectionBounded(picks: seq<Pick>, selected: seq<string>)
    requires |selected| <= MaxFiles && Distinct(selected)
    ensures |SelectFrom(picks, selected)| <= MaxFiles && Distinct(SelectFrom(picks, selected))
  {
    if !(|selected| >= MaxFiles || picks == [] || picks[0].Canceled?) {
      var next := if picks[0].path in selected then selected else selected + [picks[0].path];
      SelectionBounded(picks[1..], next);
    }
  }

  function Cap(s: seq<string>): seq<string> {
    if |s| <= MaxFiles then s else s[..MaxFiles]
  }

  lemma {:induction false} DedupIntoExtends(selected: seq<string>, paths: seq<string>)
    decreases |paths|
    ensures |DedupInto(selected, paths)| >= |selected| && DedupInto(selected, paths)[..|selected|] == selected
  {
    if paths != [] {
      var next := if paths[0] in selected then selected else selected + [paths[0]];
      DedupIntoExtends(next, paths[1..]);
      assert DedupInto(selected, paths)[..|next|][..|selected|] == next[..|selected|];
    }
  }

  /**
   * The loop keeps the first ten distinct paths picked before a cancel, in first-pick order: the
   * selection equals a reference de-duplication of the picks, capped at ten.
   */
  lemma {:induction false} SelectionIsCappedDedup(picks: seq<Pick>, selected: seq<string>)
    requires |selected| <= MaxFiles
    ensures SelectFrom(picks, selected) == Cap(DedupInto(selected, BeforeCancel(picks)))
  {
    if |selected| >= MaxFiles {
      DedupIntoExtends(selected, BeforeCancel(picks));
    } else if picks == [] || picks[0].Canceled? {
    } else {
      var next := if picks[0].path in selected then selected else selected + [picks[0].path];
      assert BeforeCancel(picks) == [picks[0].path] + BeforeCancel(picks[1..]);
      assert ([picks[0].path] + BeforeCancel(picks[1..]))[1..] == BeforeCancel(picks[1..]);
      SelectionIsCappedDedup(picks[1..], next);
    }
  }

  /** The browse action uploads `selected.slice(0, 10)`, and only when something was selected. */
  function UploadRequest(selected: seq<string>): (paths: seq<string>)
    ensures |selected| <= MaxFiles ==> paths == selected
    ensures |paths| <= MaxFiles
  {
    Cap(selected)
  }
}
