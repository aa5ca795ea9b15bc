/**
 * The choice of which project files are collected into the summary-products
 * folder, and where each collected image or document goes. Walking the
 * project and copying files are left to the caller; a walk is a sequence of
 * files with the folder each was found in.
 */
module Artifacts {
  import opened Text
  import opened Options

  /**
   * The marker of the collected-products folder: a file found in a folder
   * whose path contains it is not collected.
   */
  const SummaryFolder: string := "\\SummaryProducts\\"

  /** The collected kinds, each with its own folder. */
  datatype Kind = AI | PNG | PDF | KMZ | LPK
  {
    function Extension(): string
    {
      match this
      case AI => ".ai"
      case PNG => ".png"
      case PDF => ".pdf"
      case KMZ => ".kmz"
      case LPK => ".lpk"
    }
  }

  /**
   * The chain of `create_folder_structure` for one file: nothing found in a
   * folder whose path contains `\SummaryProducts\`, otherwise the first
   * extension the name ends with.
   */
  function Collect(root: string, name: string): (k: Option<Kind>)
    ensures Contains(root, SummaryFolder) ==> k.None?
    ensures k.Some? ==> EndsWith(name, k.value.Extension())
    ensures k.None? && !Contains(root, SummaryFolder) ==>
      forall kind: Kind :: !EndsWith(name, kind.Extension())
  {
    if Contains(root, SummaryFolder) then None
    else if EndsWith(name, ".ai") then Some(AI)
    else if EndsWith(name, ".png") then Some(PNG)
    else if EndsWith(name, ".pdf") then Some(PDF)
    else if EndsWith(name, ".kmz") then Some(KMZ)
    else if EndsWith(name, ".lpk") then Some(LPK)
    else None
  }

  /** No name ends with two of the extensions, so the order of the chain never matters. */
  lemma AtMostOneKind(name: string, k1: Kind, k2: Kind)
    requires EndsWith(name, k1.Extension()) && EndsWith(name, k2.Extension())
    ensures k1 == k2
  {
    // The five extensions end in five different letters.
    var e1, e2 := k1.Extension(), k2.Extension();
    assert name[|name| - |e1|..][|e1| - 1] == name[|name| - 1] == name[|name| - |e2|..][|e2| - 1];
    assert e1[|e1| - 1] == e2[|e2| - 1];
  }

  /** A collected file's kind is the one extension its name ends with. */
  lemma CollectPicksTheExtension(root: string, name: string, kind: Kind)
    requires !Contains(root, SummaryFolder)
    ensures Collect(root, name) == Some(kind) <==> EndsWith(name, kind.Extension())
  {
    if EndsWith(name, kind.Extension()) {
      var k := Collect(root, name);
      assert k.Some?;
      AtMostOneKind(name, k.value, kind);
    }
  }

  /** One file the project walk found: its folder, its name, and the joined path. */
  datatype Found = Found(root: string, name: string, path: string)

  /** The paths a walk collects of one kind, in walk order. */
  function Collected(walk: seq<Found>, kind: Kind): seq<string>
  {
    if walk == [] then []
    else
      var last := walk[|walk| - 1];
      Collected(walk[..|walk| - 1], kind) + (if Collect(last.root, last.name) == Some(kind) then [last.path] else [])
  }

  lemma CollectedNext(walk: seq<Found>, i: nat, kind: Kind)
    requires i < |walk|
    ensures Collected(walk[..i + 1], kind) == Collected(walk[..i], kind) +
      (if Collect(walk[i].root, walk[i].name) == Some(kind) then [walk[i].path] else [])
  {
    assert walk[..i + 1][..i] == walk[..i];
  }

  /**
   * The loop of `create_folder_structure`: each file of the walk is appended to
   * the list of its kind, if any.
   */
  method CollectArtifacts(walk: seq<Found>)
    returns (ai: seq<string>, png: seq<string>, pdf: seq<string>, kmz: seq<string>, lpk: seq<string>)
    ensures ai == Collected(walk, AI) && png == Collected(walk, PNG) && pdf == Collected(walk, PDF)
    ensures kmz == Collected(walk, KMZ) && lpk == Collected(walk, LPK)
    ensures |ai| + |png| + |pdf| + |kmz| + |lpk| <= |walk|
  {
    ai, png, pdf, kmz, lpk := [], [], [], [], [];
    for i := 0 to |walk|
      invariant ai == Collected(walk[..i], AI) && png == Collected(walk[..i], PNG)
      invariant pdf == Collected(walk[..i], PDF) && kmz == Collected(walk[..i], KMZ)
      invariant lpk == Collected(walk[..i], LPK)
      invariant |ai| + |png| + |pdf| + |kmz| + |lpk| <= i
    {
      var f := walk[i];
      var k := Collect(f.root, f.name);
      CollectedNext(walk, i, AI);
      CollectedNext(walk, i, PNG);
      CollectedNext(walk, i, PDF);
      CollectedNext(walk, i, KMZ);
      CollectedNext(walk, i, LPK);
      // The file goes to the one list of its kind, if it has one.
      ai := ai + (if k == Some(AI) then [f.path] else []);
      png := png + (if k == Some(PNG) then [f.path] else []);
      pdf := pdf + (if k == Some(PDF) then [f.path] else []);
      kmz := kmz + (if k == Some(KMZ) then [f.path] else []);
      lpk := lpk + (if k == Some(LPK) then [f.path] else []);
    }
    assert walk[..|walk|] == walk;
  }

  /**
   * A collected file was found under a folder whose path does not contain
   * `\SummaryProducts\`, and its name has the kind's extension.
   */
  lemma {:induction false} SummaryProductsNeverCollected(walk: seq<Found>, kind: Kind, path: string)
    requires path in Collected(walk, kind)
    ensures exists i :: (0 <= i < |walk| && walk[i].path == path && !Contains(walk[i].root, SummaryFolder) &&
      EndsWith(walk[i].name, kind.Extension()))
  {
    var init := walk[..|walk| - 1];
    var last := walk[|walk| - 1];
    if path in Collected(init, kind) {
      SummaryProductsNeverCollected(init, kind, path);
      var i :| 0 <= i < |init| && init[i].path == path && !Contains(init[i].root, SummaryFolder) &&
        EndsWith(init[i].name, kind.Extension());
      assert walk[i] == init[i];
    } else {
      assert walk[|walk| - 1].path == path;
    }
  }

  /** Where `copy_to_input_output_structure` puts an image or a document. */
  datatype Destination = Inputs | Intermediates | Outputs | Base

  /** The first of the three folder names the path contains decides; none means the base folder. */
  function Route(path: string): (d: Destination)
    ensures d == Inputs <==> Contains(path, "\\Inputs\\")
    ensures d == Intermediates <==> !Contains(path, "\\Inputs\\") && Contains(path, "\\01_Intermediates\\")
    ensures d == Outputs <==>
      !Contains(path, "\\Inputs\\") && !Contains(path, "\\01_Intermediates\\") && Contains(path, "\\02_Analyses\\")
    ensures d == Base <==>
      !Contains(path, "\\Inputs\\") && !Contains(path, "\\01_Intermediates\\") && !Contains(path, "\\02_Analyses\\")
  {
    if Contains(path, "\\Inputs\\") then Inputs
    else if Contains(path, "\\01_Intermediates\\") then Intermediates
    else if Contains(path, "\\02_Analyses\\") then Outputs
    else Base
  }
}
