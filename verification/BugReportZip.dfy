/** Dropping files from a bug report, least important first, until its zip is small enough. */
module ZipDropChain {
  import opened Collections
  import opened TailTrim
  import opened FileBudget
  import Decimals

  const MAX_ZIP_SIZE_BYTES := 4 * 1024 * 1024
  const USER_MESSAGE_FALLBACK_MAX_BYTES := 64.0 * 1024.0
  const USER_MESSAGE := "user-message.txt"
  const MAX_SAFE_INTEGER := 0x1F_FFFF_FFFF_FFFF

  /** A file of the report; id is the identity of its object. */
  datatype File = File(id: nat, name: string, content: string)

  function OptionalFileDropPriority(name: string, sessionId: string): nat {
    if EndsWith(name, ".settings.json") then (if name == sessionId + ".settings.json" then 60 else 20)
    else if name == USER_MESSAGE then MAX_SAFE_INTEGER
    else if name == "squad-state.json" then 10
    else if name == "init.sh" then 11
    else if name == "services.yaml" then 12
    else if name == "AGENTS.md" then 13
    else if name == "validation-contract.md" then 14
    else if name == "validation-state.json" then 15
    else if name == "canonical-artifact-layout.json" then 16
    else if name == "model-settings.json" then 30
    else if name == "features.json" then 40
    else if name == "state.json" then 50
    else if name == "byok-config.json" then 55
    else 70
  }

  /** The user message alone has the highest priority; every other file lies between 10 and 70. */
  lemma {:induction false} OnlyTheUserMessageIsIndispensable(name: string, sessionId: string)
    ensures OptionalFileDropPriority(name, sessionId) == MAX_SAFE_INTEGER <==> name == USER_MESSAGE
    ensures name != USER_MESSAGE ==> 10 <= OptionalFileDropPriority(name, sessionId) <= 70
  {
    assert USER_MESSAGE[15] == 't' && ".settings.json"[13] == 'n';
  }

  // ----- the order of dropping

  /** After all files of the same or a lower priority. */
  function Insert(sorted: seq<File>, file: File, sessionId: string): seq<File> {
    if sorted == [] || Priority(Last(sorted), sessionId) <= Priority(file, sessionId) then sorted + [file]
    else Insert(Front(sorted), file, sessionId) + [Last(sorted)]
  }

  function Priority(file: File, sessionId: string): nat {
    OptionalFileDropPriority(file.name, sessionId)
  }

  /** Array.prototype.sort by priority. */
  function SortByPriority(files: seq<File>, sessionId: string): seq<File> {
    if files == [] then [] else Insert(SortByPriority(Front(files), sessionId), Last(files), sessionId)
  }

  predicate Sorted(files: seq<File>, sessionId: string) {
    forall i, j :: 0 <= i < j < |files| ==> Priority(files[i], sessionId) <= Priority(files[j], sessionId)
  }

  function WithPriority(files: seq<File>, priority: nat, sessionId: string): seq<File> {
    if files == [] then []
    else if Priority(Last(files), sessionId) == priority
    then WithPriority(Front(files), priority, sessionId) + [Last(files)]
    else WithPriority(Front(files), priority, sessionId)
  }

  lemma {:induction false} WithPrioritySnoc(files: seq<File>, f: File, priority: nat, sessionId: string)
    ensures WithPriority(files + [f], priority, sessionId) ==
            if Priority(f, sessionId) == priority then WithPriority(files, priority, sessionId) + [f]
            else WithPriority(files, priority, sessionId)
  {
    assert Front(files + [f]) == files;
  }

  lemma {:induction false} InsertElements(sorted: seq<File>, f: File, sessionId: string)
    ensures |Insert(sorted, f, sessionId)| == |sorted| + 1
    ensures forall x :: x in Insert(sorted, f, sessionId) <==> x in sorted || x == f
  {
    hide OptionalFileDropPriority;
    if sorted != [] && Priority(Last(sorted), sessionId) > Priority(f, sessionId) {
      InsertElements(Front(sorted), f, sessionId);
      assert sorted == Front(sorted) + [Last(sorted)];
    }
  }

  lemma {:induction false} InsertSorted(sorted: seq<File>, f: File, sessionId: string)
    requires Sorted(sorted, sessionId)
    ensures Sorted(Insert(sorted, f, sessionId), sessionId)
  {
    hide OptionalFileDropPriority;
    if sorted != [] && Priority(Last(sorted), sessionId) > Priority(f, sessionId) {
      var front, last := Front(sorted), Last(sorted);
      InsertSorted(front, f, sessionId);
      InsertElements(front, f, sessionId);
      var more := Insert(front, f, sessionId);
      assert forall x :: x in front ==> Priority(x, sessionId) <= Priority(last, sessionId);
      assert forall i :: 0 <= i < |more| ==> more[i] in more;
    }
  }

  lemma {:induction false} InsertStable(sorted: seq<File>, f: File, priority: nat, sessionId: string)
    requires Sorted(sorted, sessionId)
    ensures WithPriority(Insert(sorted, f, sessionId), priority, sessionId)
            == WithPriority(sorted + [f], priority, sessionId)
  {
    hide OptionalFileDropPriority;
    if sorted != [] && Priority(Last(sorted), sessionId) > Priority(f, sessionId) {
      var front, last := Front(sorted), Last(sorted);
      InsertStable(front, f, priority, sessionId);
      WithPrioritySnoc(Insert(front, f, sessionId), last, priority, sessionId);
      WithPrioritySnoc(sorted, f, priority, sessionId);
      WithPrioritySnoc(front, f, priority, sessionId);
    }
  }

  /** The sort is by priority, and stable: the files of each priority keep their order. */
  lemma {:induction false} SortIsStable(files: seq<File>, priority: nat, sessionId: string)
    ensures var sorted := SortByPriority(files, sessionId);
            && Sorted(sorted, sessionId)
            && |sorted| == |files| && (forall x :: x in sorted <==> x in files)
            && WithPriority(sorted, priority, sessionId) == WithPriority(files, priority, sessionId)
  {
    hide OptionalFileDropPriority, Insert;
    if files != [] {
      SortIsStable(Front(files), priority, sessionId);
      var sorted := SortByPriority(Front(files), sessionId);
      InsertElements(sorted, Last(files), sessionId);
      InsertSorted(sorted, Last(files), sessionId);
      InsertStable(sorted, Last(files), priority, sessionId);
      WithPrioritySnoc(sorted, Last(files), priority, sessionId);
      WithPrioritySnoc(Front(files), Last(files), priority, sessionId);
      assert files == Front(files) + [Last(files)];
    }
  }

  function Droppable(files: seq<File>): seq<File> {
    if files == [] then []
    else if Last(files).name != USER_MESSAGE then Droppable(Front(files)) + [Last(files)]
    else Droppable(Front(files))
  }

  lemma {:induction false} DroppableAre(files: seq<File>)
    ensures forall f :: f in Droppable(files) <==> f in files && f.name != USER_MESSAGE
  {
    if files != [] {
      DroppableAre(Front(files));
      assert files == Front(files) + [Last(files)];
    }
  }

  // ----- the chain

  function DropOrder(files: seq<File>, sessionId: string): seq<File> {
    SortByPriority(Droppable(files), sessionId)
  }

  /** The files without the first k of the drop order. */
  function Candidate(files: seq<File>, order: seq<File>, k: nat): seq<File>
    requires k <= |order|
  {
    Minus(files, Elements(order[..k]))
  }

  function FindUserMessage(files: seq<File>): (found: Option<File>)
    ensures found.Some? ==> found.value in files && found.value.name == USER_MESSAGE
    ensures found.None? ==> forall f :: f in files ==> f.name != USER_MESSAGE
  {
    if files == [] then None
    else if files[0].name == USER_MESSAGE then Some(files[0])
    else FindUserMessage(files[1..])
  }

  /** What is zipped when even the whole chain is too big; without a user message, the last candidate. */
  function Fallback(files: seq<File>, order: seq<File>): seq<File> {
    var user := FindUserMessage(files);
    if user.Some? then [user.value.(content := Trimmed(user.value.content, USER_MESSAGE_FALLBACK_MAX_BYTES))]
    else Candidate(files, order, |order|)
  }

  /** size is the length of the zip of a list of files. */
  predicate Fits(size: seq<File> -> nat, files: seq<File>) { size(files) <= MAX_ZIP_SIZE_BYTES }

  /** The first candidate that fits, and otherwise the fallback. */
  ghost predicate IsFirstFit(size: seq<File> -> nat, files: seq<File>, order: seq<File>, zipped: seq<File>) {
    || (exists k | 0 <= k <= |order| ::
          && Fits(size, Candidate(files, order, k)) && zipped == Candidate(files, order, k)
          && forall j :: 0 <= j < k ==> !Fits(size, Candidate(files, order, j)))
    || (zipped == Fallback(files, order)
        && forall j :: 0 <= j <= |order| ==> !Fits(size, Candidate(files, order, j)))
  }

  lemma {:induction false} OneMoreDropped(files: seq<File>, order: seq<File>, k: nat)
    requires k < |order|
    ensures Candidate(files, order, k + 1) == Minus(Candidate(files, order, k), {order[k]})
  {
    assert order[..k + 1] == order[..k] + [order[k]];
    Snoc(order[..k], order[k], {});
    MinusMinus(files, Elements(order[..k]), {order[k]});
  }

  method EnsureZipWithinLimit(size: seq<File> -> nat, files: seq<File>, sessionId: string)
    returns (zipped: seq<File>)
    ensures IsFirstFit(size, files, DropOrder(files, sessionId), zipped)
  {
    hide SortByPriority, Droppable, Minus, Elements, FindUserMessage, Trimmed;
    var candidateFiles := files;
    ghost var order := DropOrder(files, sessionId);
    assert Candidate(files, order, 0) == files by { NothingDropped(files, order); }
    if size(candidateFiles) <= MAX_ZIP_SIZE_BYTES {
      return candidateFiles;
    }
    var droppableFiles := SortByPriority(Droppable(files), sessionId);
    for k := 0 to |droppableFiles|
      invariant candidateFiles == Candidate(files, order, k)
      invariant forall j :: 0 <= j <= k ==> !Fits(size, Candidate(files, order, j))
    {
      OneMoreDropped(files, order, k);
      candidateFiles := Minus(candidateFiles, {droppableFiles[k]});
      if size(candidateFiles) <= MAX_ZIP_SIZE_BYTES {
        return candidateFiles;
      }
    }
    var userMessageFile := FindUserMessage(files);
    if userMessageFile.Some? {
      var content := TrimToTail(userMessageFile.value.content, USER_MESSAGE_FALLBACK_MAX_BYTES);
      return [userMessageFile.value.(content := content)];
    }
    zipped := candidateFiles;
  }

  lemma {:induction false} NothingDropped(files: seq<File>, order: seq<File>)
    ensures Candidate(files, order, 0) == files
  {
    assert order[..0] == [];
    MinusNothing(files, {});
  }

  // ----- what is promised

  lemma {:induction false} CandidateIs(files: seq<File>, order: seq<File>, k: nat, f: File)
    requires k <= |order|
    ensures f in Candidate(files, order, k) <==> f in files && f !in order[..k]
  {
    MinusElements(files, Elements(order[..k]));
    ElementsAre(Candidate(files, order, k), f);
    ElementsAre(files, f);
    ElementsAre(order[..k], f);
  }

  /** The user message is in every candidate, and the last one holds nothing else. */
  lemma {:induction false} UserMessageSurvives(files: seq<File>, sessionId: string, k: nat, f: File)
    requires var order := DropOrder(files, sessionId); k <= |order|
    requires f in files
    ensures var order := DropOrder(files, sessionId);
            && (f.name == USER_MESSAGE ==> f in Candidate(files, order, k))
            && (f in Candidate(files, order, |order|) <==> f.name == USER_MESSAGE)
  {
    var order := DropOrder(files, sessionId);
    SortIsStable(Droppable(files), 0, sessionId);
    DroppableAre(files);
    CandidateIs(files, order, k, f);
    CandidateIs(files, order, |order|, f);
    assert order[..|order|] == order;
    assert f.name == USER_MESSAGE ==> f !in order;
  }

  /** Every file that was dropped comes at or below, in priority, every droppable file that was kept. */
  lemma {:induction false} LeastImportantGoFirst(files: seq<File>, sessionId: string, k: nat, kept: File, dropped: File)
    requires var order := DropOrder(files, sessionId); k <= |order|
    requires kept in files && kept.name != USER_MESSAGE && kept in Candidate(files, DropOrder(files, sessionId), k)
    requires dropped in files && dropped !in Candidate(files, DropOrder(files, sessionId), k)
    ensures dropped.name != USER_MESSAGE && Priority(dropped, sessionId) <= Priority(kept, sessionId)
  {
    hide Priority, Insert, SortByPriority, Droppable, Candidate, WithPriority;
    var order := DropOrder(files, sessionId);
    SortIsStable(Droppable(files), 0, sessionId);
    DroppableAre(files);
    CandidateIs(files, order, k, kept);
    CandidateIs(files, order, k, dropped);
    var i :| 0 <= i < k && order[..k][i] == dropped;
    assert order[i] == dropped && dropped in order;
    assert kept in order;
    var j :| 0 <= j < |order| && order[j] == kept;
    assert forall m :: 0 <= m < k ==> order[m] == order[..k][m];
  }

  ghost predicate SomeFits(size: seq<File> -> nat, files: seq<File>, order: seq<File>) {
    exists k | 0 <= k <= |order| :: Fits(size, Candidate(files, order, k))
  }

  /** Which candidate was zipped, when one fits. */
  lemma {:induction false} ZippedCandidate(size: seq<File> -> nat, files: seq<File>, order: seq<File>, zipped: seq<File>)
    returns (k: nat)
    requires IsFirstFit(size, files, order, zipped) && SomeFits(size, files, order)
    ensures k <= |order| && zipped == Candidate(files, order, k) && Fits(size, zipped)
    ensures forall j :: 0 <= j < k ==> !Fits(size, Candidate(files, order, j))
  {
    hide Candidate, Fallback, Fits;
    k :| 0 <= k <= |order| && Fits(size, Candidate(files, order, k)) && zipped == Candidate(files, order, k)
         && forall j :: 0 <= j < k ==> !Fits(size, Candidate(files, order, j));
  }

  /** Every file that is missing from the zip comes at or below, in priority, every droppable file in it. */
  lemma {:induction false} ZippedFilesMatterMost(size: seq<File> -> nat, files: seq<File>, sessionId: string,
                                                zipped: seq<File>, kept: File, dropped: File)
    requires IsFirstFit(size, files, DropOrder(files, sessionId), zipped)
    requires SomeFits(size, files, DropOrder(files, sessionId))
    requires kept in zipped && kept.name != USER_MESSAGE && dropped in files && dropped !in zipped
    ensures kept in files && dropped.name != USER_MESSAGE
    ensures Priority(dropped, sessionId) <= Priority(kept, sessionId)
  {
    hide DropOrder, Candidate, IsFirstFit, SomeFits, Priority;
    var k := ZippedCandidate(size, files, DropOrder(files, sessionId), zipped);
    CandidateIs(files, DropOrder(files, sessionId), k, kept);
    LeastImportantGoFirst(files, sessionId, k, kept, dropped);
  }

  lemma {:induction false} CandidatesShrink(files: seq<File>, order: seq<File>, j: nat, k: nat)
    requires j <= k <= |order|
    ensures |Candidate(files, order, k)| <= |Candidate(files, order, j)|
    decreases k - j
  {
    hide Candidate;
    if j < k {
      CandidatesShrink(files, order, j, k - 1);
      OneMoreDropped(files, order, k - 1);
      MinusShrinks(Candidate(files, order, k - 1), {order[k - 1]});
    }
  }

  lemma {:induction false} MinusShrinks(files: seq<File>, gone: set<File>)
    ensures |Minus(files, gone)| <= |files|
  {
    if files != [] {
      MinusShrinks(Front(files), gone);
    }
  }

  /** The zip is the longest candidate that fits: it holds the user message, and each longer one is too big. */
  lemma {:induction false} ZipIsTheLongestThatFits(size: seq<File> -> nat, files: seq<File>, sessionId: string,
                                                  zipped: seq<File>, k: nat, user: File)
    requires IsFirstFit(size, files, DropOrder(files, sessionId), zipped)
    requires SomeFits(size, files, DropOrder(files, sessionId)) && k <= |DropOrder(files, sessionId)|
    requires user in files && user.name == USER_MESSAGE
    ensures Fits(size, zipped) && user in zipped
    ensures |Candidate(files, DropOrder(files, sessionId), k)| > |zipped| ==>
              !Fits(size, Candidate(files, DropOrder(files, sessionId), k))
  {
    hide DropOrder, Candidate, IsFirstFit, SomeFits, Fits;
    var order := DropOrder(files, sessionId);
    var n := ZippedCandidate(size, files, order, zipped);
    UserMessageSurvives(files, sessionId, n, user);
    if k >= n {
      CandidatesShrink(files, order, n, k);
    }
  }

  /** The fallback keeps the user message alone, and at most 64 KiB of it. */
  lemma {:induction false} FallbackIsSmall(files: seq<File>, order: seq<File>)
    requires FindUserMessage(files).Some?
    requires |Split(FindUserMessage(files).value.content)| < Decimals.Power10(36)
    ensures |Fallback(files, order)| == 1
    ensures var f := Fallback(files, order)[0];
            f.name == USER_MESSAGE && ByteLength(f.content) <= 64 * 1024
  {
    hide FindUserMessage, Split, Decimals.Power10, Trimmed, ByteLength;
    TrimmedFits(FindUserMessage(files).value.content, USER_MESSAGE_FALLBACK_MAX_BYTES);
  }
}
