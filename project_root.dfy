/**
 * The search for the project root that both platform detectors perform:
 * starting at the hook's own directory and moving one parent at a time,
 * each level is probed for a Magento 1, a Magento 2 and a Laravel marker,
 * in that order, and the first marker found decides the outcome.
 */
module ProjectRoot {
  import opened Outcomes

  const LOCAL_XML := "/public/app/etc/local.xml"
  const BIN_MAGENTO := "/bin/magento"
  const ARTISAN := "/artisan"

  const MAGENTO_TWO_DETECTED := "Magento 2 detected. This is currently not supported."
  const LARAVEL_DETECTED := "Laravel detected. This is currently not supported."
  const ROOT_NOT_FOUND := "Failed finding project root."

  /** What a Magento 1 local.xml holds: its raw text and the dbname node, if the XML has one. */
  datatype LocalXml = LocalXml(text: string, dbname: Option<string>)

  /** The part of the filesystem the hook looks at. */
  datatype Disk = Disk(
    files: set<string>,               // paths at which `is_file` holds
    here: string,                     // the directory of the detecting source file (`__DIR__`): src/Util for Platform.php, src for DbContext.php
    parents: seq<string>,             // successive `realpath($dir . '/../')` results, up to the filesystem root
    readable: set<string>,            // paths at which `file_exists` and `is_readable` both hold
    localXml: map<string, LocalXml>)  // the contents of each local.xml, by path

  /** The directories the walk may visit, nearest first. */
  function Levels(d: Disk): seq<string> {
    [d.here] + d.parents
  }

  /** The contents of a local.xml; a file missing from the map has no text and no dbname. */
  function LocalXmlAt(d: Disk, path: string): LocalXml {
    if path in d.localXml then d.localXml[path] else LocalXml("", None)
  }

  datatype Marker = MagentoOne | MagentoTwo | Laravel | Unmarked

  /** The marker that decides a level, by the fixed priority Magento 1, Magento 2, Laravel. */
  function MarkerAt(files: set<string>, dir: string): (r: Marker)
    ensures r == MagentoOne <==> dir + LOCAL_XML in files
    ensures r == MagentoTwo <==> dir + LOCAL_XML !in files && dir + BIN_MAGENTO in files
    ensures r == Laravel <==> dir + LOCAL_XML !in files && dir + BIN_MAGENTO !in files && dir + ARTISAN in files
    ensures r == Unmarked <==> dir + LOCAL_XML !in files && dir + BIN_MAGENTO !in files && dir + ARTISAN !in files
  {
    if dir + LOCAL_XML in files then MagentoOne
    else if dir + BIN_MAGENTO in files then MagentoTwo
    else if dir + ARTISAN in files then Laravel
    else Unmarked
  }

  /** How the walk ends at a marked level: a Magento 1 root, or an unsupported platform. */
  function Verdict(m: Marker, dir: string): Result<string>
    requires m != Unmarked
  {
    match m
    case MagentoOne => Success(dir)
    case MagentoTwo => Failure(Runtime(MAGENTO_TWO_DETECTED))
    case Laravel => Failure(Runtime(LARAVEL_DETECTED))
  }

  /** The outcome of walking the given levels. */
  function FindRoot(files: set<string>, levels: seq<string>): Result<string>
    decreases |levels|
  {
    if levels == [] then Failure(Runtime(ROOT_NOT_FOUND))
    else if MarkerAt(files, levels[0]) == Unmarked then FindRoot(files, levels[1..])
    else Verdict(MarkerAt(files, levels[0]), levels[0])
  }

  /** The position of the first marked level, or the number of levels when none is marked. */
  function FirstMarked(files: set<string>, levels: seq<string>): (k: nat)
    ensures k <= |levels|
    ensures forall j :: 0 <= j < k ==> MarkerAt(files, levels[j]) == Unmarked
    ensures k < |levels| ==> MarkerAt(files, levels[k]) != Unmarked
    decreases |levels|
  {
    if levels == [] || MarkerAt(files, levels[0]) != Unmarked then 0
    else 1 + FirstMarked(files, levels[1..])
  }

  /**
   * The walk is decided by the first marked level, whatever the levels above
   * it hold, and it fails with "Failed finding project root." exactly when
   * no level is marked.
   */
  lemma {:induction false} FindRootIsFirstMarked(files: set<string>, levels: seq<string>)
    ensures var k := FirstMarked(files, levels);
      FindRoot(files, levels) ==
        if k < |levels| then Verdict(MarkerAt(files, levels[k]), levels[k])
        else Failure(Runtime(ROOT_NOT_FOUND))
    decreases |levels|
  {
    if levels != [] && MarkerAt(files, levels[0]) == Unmarked {
      FindRootIsFirstMarked(files, levels[1..]);
    }
  }

  /**
   * Only the levels up to and including the first marked one are inspected:
   * any walk that agrees with this one up to that level ends the same way.
   */
  lemma {:induction false} NothingAboveFirstMarkIsInspected(files: set<string>, levels: seq<string>, other: seq<string>)
    requires FirstMarked(files, levels) < |levels|
    requires FirstMarked(files, levels) < |other|
    requires other[..FirstMarked(files, levels) + 1] == levels[..FirstMarked(files, levels) + 1]
    ensures FindRoot(files, other) == FindRoot(files, levels)
  {
    var k := FirstMarked(files, levels);
    assert forall j :: 0 <= j <= k ==> other[j] == levels[j] by {
      forall j | 0 <= j <= k ensures other[j] == levels[j] {
        assert other[..k + 1][j] == levels[..k + 1][j];
      }
    }
    FirstMarkedIs(files, other, k);
    FindRootIsFirstMarked(files, levels);
    FindRootIsFirstMarked(files, other);
  }

  lemma {:induction false} FirstMarkedIs(files: set<string>, levels: seq<string>, k: nat)
    requires k < |levels|
    requires forall j :: 0 <= j < k ==> MarkerAt(files, levels[j]) == Unmarked
    requires MarkerAt(files, levels[k]) != Unmarked
    ensures FirstMarked(files, levels) == k
    decreases k
  {
    if k > 0 {
      assert MarkerAt(files, levels[0]) == Unmarked;
      FirstMarkedIs(files, levels[1..], k - 1);
    }
  }

  /**
   * A Magento 1 marker at the first marked level wins over a Magento 2 or a
   * Laravel marker at the same level: the walk returns that level as root.
   */
  lemma MagentoOneWinsAtItsLevel(files: set<string>, levels: seq<string>, k: nat)
    requires k < |levels|
    requires forall j :: 0 <= j < k ==> MarkerAt(files, levels[j]) == Unmarked
    requires levels[k] + LOCAL_XML in files
    ensures FindRoot(files, levels) == Success(levels[k])
  {
    FirstMarkedIs(files, levels, k);
    FindRootIsFirstMarked(files, levels);
  }

  /**
   * A Magento 2 marker reached before any Magento 1 marker is fatal,
   * whatever the levels above it hold.
   */
  lemma MagentoTwoBeforeMagentoOneIsFatal(files: set<string>, levels: seq<string>, k: nat)
    requires k < |levels|
    requires forall j :: 0 <= j < k ==> MarkerAt(files, levels[j]) == Unmarked
    requires levels[k] + LOCAL_XML !in files && levels[k] + BIN_MAGENTO in files
    ensures FindRoot(files, levels) == Failure(Runtime(MAGENTO_TWO_DETECTED))
  {
    FirstMarkedIs(files, levels, k);
    FindRootIsFirstMarked(files, levels);
  }

  /** The walk as the source runs it: probe the markers, then step to the parent until there is none. */
  method Walk(d: Disk) returns (r: Result<string>)
    ensures r == FindRoot(d.files, Levels(d))
  {
    var searchPath := d.here;
    var k := 0;
    while true
      invariant 0 <= k <= |d.parents|
      invariant searchPath == Levels(d)[k]
      invariant FindRoot(d.files, Levels(d)[k..]) == FindRoot(d.files, Levels(d))
      decreases |d.parents| - k
    {
      if searchPath + LOCAL_XML in d.files {
        return Success(searchPath);
      }
      if searchPath + BIN_MAGENTO in d.files {
        return Failure(Runtime(MAGENTO_TWO_DETECTED));
      }
      if searchPath + ARTISAN in d.files {
        return Failure(Runtime(LARAVEL_DETECTED));
      }
      assert Levels(d)[k..][1..] == Levels(d)[k + 1..];
      if k == |d.parents| {
        break;
      }
      searchPath := d.parents[k];
      k := k + 1;
    }
    assert Levels(d)[k + 1..] == [];
    return Failure(Runtime(ROOT_NOT_FOUND));
  }

  /**
   * The walk as written, over a filesystem given by `realpath`, run for at
   * most `fuel` levels: `None` when the fuel runs out first. It ends only at
   * a marker or when `realpath` gives false, and what it ends with is a
   * directory holding a Magento 1 local.xml or one of the three errors.
   */
  function WalkUpTo(files: set<string>, realpath: string -> Option<string>, dir: string, fuel: nat): (r: Option<Result<string>>)
    ensures r.Some? && r.value.Success? ==> r.value.value + LOCAL_XML in files
    ensures r.Some? && r.value.Failure? ==>
      r.value.error in {Runtime(MAGENTO_TWO_DETECTED), Runtime(LARAVEL_DETECTED), Runtime(ROOT_NOT_FOUND)}
    decreases fuel
  {
    if fuel == 0 then None
    else if MarkerAt(files, dir) != Unmarked then Some(Verdict(MarkerAt(files, dir), dir))
    else
      match realpath(dir + "/../")
      case None => Some(Failure(Runtime(ROOT_NOT_FOUND)))
      case Some(parent) => WalkUpTo(files, realpath, parent, fuel - 1)
  }

  /**
   * `realpath('/' . '/../')` is '/' itself, never false, so a walk that
   * reaches an unmarked filesystem root stays there: no number of steps
   * brings it to a verdict.
   */
  lemma {:induction false} WalkNeverLeavesUnmarkedRoot(files: set<string>, realpath: string -> Option<string>, fuel: nat)
    requires realpath("/" + "/../") == Some("/")
    requires MarkerAt(files, "/") == Unmarked
    ensures WalkUpTo(files, realpath, "/", fuel) == None
    decreases fuel
  {
    if fuel > 0 {
      WalkNeverLeavesUnmarkedRoot(files, realpath, fuel - 1);
    }
  }

  /**
   * Wherever some level is marked, the walk as written ends at it within as
   * many steps as there are levels, with the verdict `FindRoot` gives: only
   * an unmarked chain up to `/` separates it from the finite walk.
   */
  lemma {:induction false} WalkUpToIsFindRootWhenMarked(files: set<string>, realpath: string -> Option<string>, levels: seq<string>)
    requires ChainToRoot(realpath, levels)
    requires FirstMarked(files, levels) < |levels|
    ensures WalkUpTo(files, realpath, levels[0], |levels|) == Some(FindRoot(files, levels))
    decreases |levels|
  {
    if MarkerAt(files, levels[0]) == Unmarked {
      var rest := levels[1..];
      assert realpath(levels[0] + "/../") == Some(levels[1]);
      assert ChainToRoot(realpath, rest) by {
        forall i | 0 <= i < |rest| - 1
          ensures realpath(rest[i] + "/../") == Some(rest[i + 1]) && rest[i + 1] != rest[i]
        {
          assert rest[i] == levels[i + 1] && rest[i + 1] == levels[i + 2];
        }
      }
      WalkUpToIsFindRootWhenMarked(files, realpath, rest);
    }
  }

  /** The walk that also stops, with "Failed finding project root.", at a level that is its own parent. */
  function WalkToRoot(files: set<string>, realpath: string -> Option<string>, dir: string, fuel: nat): Option<Result<string>>
    decreases fuel
  {
    if fuel == 0 then None
    else if MarkerAt(files, dir) != Unmarked then Some(Verdict(MarkerAt(files, dir), dir))
    else
      match realpath(dir + "/../")
      case None => Some(Failure(Runtime(ROOT_NOT_FOUND)))
      case Some(parent) =>
        if parent == dir then Some(Failure(Runtime(ROOT_NOT_FOUND)))
        else WalkToRoot(files, realpath, parent, fuel - 1)
  }

  /**
   * `levels` lists the directories from a start upwards: each one's parent
   * is the next, a different directory, and the last one has no parent or
   * is its own parent.
   */
  predicate ChainToRoot(realpath: string -> Option<string>, levels: seq<string>) {
    && levels != []
    && (forall i :: 0 <= i < |levels| - 1 ==> realpath(levels[i] + "/../") == Some(levels[i + 1]) && levels[i + 1] != levels[i])
    && (realpath(levels[|levels| - 1] + "/../") == None || realpath(levels[|levels| - 1] + "/../") == Some(levels[|levels| - 1]))
  }

  /**
   * The corrected walk ends within as many steps as there are levels, and
   * with the verdict `FindRoot` gives for those levels: the finite walk the
   * rest of the model uses is the corrected one.
   */
  lemma {:induction false} CorrectedWalkIsFindRoot(files: set<string>, realpath: string -> Option<string>, levels: seq<string>)
    requires ChainToRoot(realpath, levels)
    ensures WalkToRoot(files, realpath, levels[0], |levels|) == Some(FindRoot(files, levels))
    decreases |levels|
  {
    if MarkerAt(files, levels[0]) == Unmarked && |levels| > 1 {
      var rest := levels[1..];
      assert realpath(levels[0] + "/../") == Some(levels[1]);
      assert ChainToRoot(realpath, rest) by {
        forall i | 0 <= i < |rest| - 1
          ensures realpath(rest[i] + "/../") == Some(rest[i + 1]) && rest[i + 1] != rest[i]
        {
          assert rest[i] == levels[i + 1] && rest[i + 1] == levels[i + 2];
        }
      }
      CorrectedWalkIsFindRoot(files, realpath, rest);
    }
  }

  /** What a platform detector returns: the platform tag and the project root. */
  datatype Detected = Detected(platform: Option<string>, projectRoot: string)

  /** The walk's root tagged with a platform, failures passed through. */
  function Tagged(root: Result<string>, platform: Option<string>): Result<Detected> {
    match root
    case Success(dir) => Success(Detected(platform, dir))
    case Failure(e) => Failure(e)
  }
}
