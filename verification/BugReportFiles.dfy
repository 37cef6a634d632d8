/** Trimming the files of a bug report in place, each to its allocation. */
module FileBudget {
  import opened Collections
  import opened BudgetShares
  import opened TailTrim
  import opened Decimals

  // ----- weights

  predicate EndsWith(s: string, suffix: string) {
    |suffix| <= |s| && s[|s| - |suffix|..] == suffix
  }

  predicate IsSessionTranscriptFile(name: string) {
    EndsWith(name, ".jsonl") && name != "progress_log.jsonl"
  }

  function BudgetRatio(name: string, includesSessionFile: bool): (ratio: real)
    ensures ratio > 0.0
  {
    if includesSessionFile then
      if name == "drool-log.log" || name == "industryd.log" then 0.5
      else if name == "console.log" then 0.2
      else 0.3
    else if name == "drool-log.log" || name == "industryd.log" then 0.8
    else 0.2
  }

  // ----- the effect on the contents

  datatype Text = Text(content: string, weight: real)

  function ItemOf(text: Text): Item {
    Item(ByteLength(text.content) as real, text.weight)
  }

  function Items(texts: seq<Text>): (items: seq<Item>)
    ensures |items| == |texts|
  {
    if texts == [] then [] else Items(Front(texts)) + [ItemOf(Last(texts))]
  }

  function BytesAfter(texts: seq<Text>, t: Totals): nat {
    if texts == [] then 0
    else
      var text := Last(texts);
      BytesAfter(Front(texts), t) + ByteLength(Trimmed(text.content, Allocation(ItemOf(text), t)))
  }

  function TrimmedCount(texts: seq<Text>, t: Totals): nat {
    if texts == [] then 0
    else
      var item := ItemOf(Last(texts));
      TrimmedCount(Front(texts), t) + if item.size > Allocation(item, t) then 1 else 0
  }

  predicate Weighted(texts: seq<Text>) {
    forall i :: 0 <= i < |texts| ==> texts[i].weight > 0.0
  }

  predicate FewLines(texts: seq<Text>) {
    forall i :: 0 <= i < |texts| ==> |Split(texts[i].content)| < Power10(36)
  }

  lemma {:induction false} ItemsAre(texts: seq<Text>)
    ensures forall i :: 0 <= i < |texts| ==> Items(texts)[i] == ItemOf(texts[i])
    ensures Weighted(texts) ==> Positive(Items(texts))
  {
    if texts != [] {
      ItemsAre(Front(texts));
    }
  }

  lemma {:induction false} TrimmedWithin(content: string, maxBytes: real)
    requires maxBytes >= 0.0 && |Split(content)| < Power10(36)
    ensures ByteLength(Trimmed(content, maxBytes)) as real
            <= maxBytes + if ByteLength(content) as real > maxBytes then 80.0 else 0.0
  {
    hide ByteLength, Split, Power10;
    if ByteLength(content) as real > maxBytes {
      TrimmedFits(content, maxBytes);
    }
  }

  lemma {:induction false} OneTrimmed(text: Text, t: Totals)
    requires text.weight > 0.0 && t.budget >= 0.0 && t.weight > 0.0 && |Split(text.content)| < Power10(36)
    ensures var item := ItemOf(text);
            ByteLength(Trimmed(text.content, Allocation(item, t))) as real
            <= Allocation(item, t) + if item.size > Allocation(item, t) then 80.0 else 0.0
  {
    hide Trimmed, Allocation, ByteLength, Split, Power10, FirstPass;
    RedistributionNeverLowers(ItemOf(text), t);
    TrimmedWithin(text.content, Allocation(ItemOf(text), t));
  }

  lemma {:induction false} FitsUnchanged(content: string, maxBytes: real)
    requires ByteLength(content) as real <= maxBytes
    ensures Trimmed(content, maxBytes) == content
  {}

  lemma {:induction false} TrimmedSum(texts: seq<Text>, t: Totals)
    requires Weighted(texts) && FewLines(texts) && t.budget >= 0.0 && t.weight > 0.0
    ensures BytesAfter(texts, t) as real
            <= AllocationSum(Items(texts), t) + 80.0 * TrimmedCount(texts, t) as real
  {
    hide Trimmed, Allocation, ByteLength, Split;
    if texts != [] {
      TrimmedSum(Front(texts), t);
      OneTrimmed(Last(texts), t);
      assert Front(Items(texts)) == Items(Front(texts));
    }
  }

  /** After trimming the files take up the budget at most, and 80 bytes more for each file that was trimmed. */
  lemma {:induction false} TrimmedFilesFit(texts: seq<Text>, budget: real)
    requires texts != [] && Weighted(texts) && FewLines(texts) && budget >= 0.0
    ensures var t := TotalsOf(Items(texts), budget);
            BytesAfter(texts, t) as real <= budget + 80.0 * TrimmedCount(texts, t) as real
  {
    var t := TotalsOf(Items(texts), budget);
    ItemsAre(texts);
    WholeBudget(Items(texts), t);
    Conserved(Items(texts), t);
    TrimmedSum(texts, t);
  }

  /** Files that fit together, at most one of them above its share, all stay as they are. */
  lemma {:induction false} NothingChanges(texts: seq<Text>, budget: real, j: nat, i: nat)
    requires Weighted(texts) && budget >= 0.0 && j < |texts| && i < |texts|
    requires SizeSum(Items(texts)) <= budget
    requires var t := TotalsOf(Items(texts), budget);
             forall k :: 0 <= k < |texts| && k != j ==> !Oversize(Items(texts)[k], t)
    ensures var t := TotalsOf(Items(texts), budget);
            Trimmed(texts[i].content, Allocation(ItemOf(texts[i]), t)) == texts[i].content
  {
    var t := TotalsOf(Items(texts), budget);
    ItemsAre(texts);
    OneOversizeFile(Items(texts), budget, j);
    assert Items(texts)[i].size <= Allocation(Items(texts)[i], t);
    FitsUnchanged(texts[i].content, Allocation(ItemOf(texts[i]), t));
  }

  // ----- the method

  class BugReportFile {
    const name: string
    const trimmable: bool
    var content: string

    constructor (name: string, content: string, trimmable: bool)
      ensures this.name == name && this.content == content && this.trimmable == trimmable
    {
      this.name, this.content, this.trimmable := name, content, trimmable;
    }
  }

  function ReservedBytes(files: seq<BugReportFile>): nat
    reads files
  {
    if files == [] then 0
    else ReservedBytes(Front(files)) + if Last(files).trimmable then 0 else ByteLength(Last(files).content)
  }

  function Trimmables(files: seq<BugReportFile>): (trimmable: seq<BugReportFile>)
    ensures forall f :: f in trimmable ==> f in files
  {
    if files == [] then []
    else if Last(files).trimmable then Trimmables(Front(files)) + [Last(files)]
    else Trimmables(Front(files))
  }

  predicate DistinctNames(files: seq<BugReportFile>) {
    forall i, j :: 0 <= i < j < |files| ==> files[i].name != files[j].name
  }

  predicate IncludesSessionFile(files: seq<BugReportFile>) {
    exists f :: f in files && IsSessionTranscriptFile(f.name)
  }

  function TextOf(file: BugReportFile, includesSessionFile: bool): Text
    reads file
  {
    Text(file.content, BudgetRatio(file.name, includesSessionFile))
  }

  function Texts(files: seq<BugReportFile>, includesSessionFile: bool): seq<Text>
    reads files
  {
    if files == [] then []
    else Texts(Front(files), includesSessionFile) + [TextOf(Last(files), includesSessionFile)]
  }

  function TrimmableBudget(files: seq<BugReportFile>, budgetBytes: real): (b: real)
    reads files
    ensures b >= 0.0
  {
    var left := budgetBytes - ReservedBytes(files) as real;
    if left > 0.0 then left else 0.0
  }

  /** The totals on which the allocations of the files depend. */
  function Plan(files: seq<BugReportFile>, budgetBytes: real): Totals
    reads files, Trimmables(files)
  {
    var trimmable := Trimmables(files);
    TotalsOf(Items(Texts(trimmable, IncludesSessionFile(trimmable))), TrimmableBudget(files, budgetBytes))
  }

  lemma {:induction false} TrimmablesAre(files: seq<BugReportFile>)
    ensures forall f :: f in Trimmables(files) <==> f in files && f.trimmable
  {
    if files != [] {
      TrimmablesAre(Front(files));
      assert files == Front(files) + [Last(files)];
    }
  }

  lemma {:induction false} TextsAre(files: seq<BugReportFile>, inc: bool)
    ensures var texts := Texts(files, inc);
            |texts| == |files| && (forall i :: 0 <= i < |files| ==> texts[i] == TextOf(files[i], inc))
    ensures Weighted(Texts(files, inc))
  {
    if files != [] {
      TextsAre(Front(files), inc);
    }
  }

  function Bytes(files: seq<BugReportFile>): nat
    reads files
  {
    if files == [] then 0 else Bytes(Front(files)) + ByteLength(Last(files).content)
  }

  /** Once each file holds the trim of its text, they take the bytes of the trimmed texts. */
  lemma {:induction false} BytesAre(files: seq<BugReportFile>, texts: seq<Text>, t: Totals)
    requires |texts| == |files|
    requires forall k :: 0 <= k < |files| ==>
               files[k].content == Trimmed(texts[k].content, Allocation(ItemOf(texts[k]), t))
    ensures Bytes(files) == BytesAfter(texts, t)
  {
    hide ByteLength, Trimmed, Allocation;
    if files != [] {
      BytesAre(Front(files), Front(texts), t);
    }
  }

  /** The bytes of the contents whose files may not be trimmed. */
  function KeptBytes(files: seq<BugReportFile>, contents: seq<string>): nat
    requires |contents| == |files|
  {
    if files == [] then 0
    else KeptBytes(Front(files), Front(contents)) + if Last(files).trimmable then 0 else ByteLength(Last(contents))
  }

  lemma {:induction false} KeptAre(files: seq<BugReportFile>, contents: seq<string>)
    requires |contents| == |files|
    requires forall i :: 0 <= i < |files| && !files[i].trimmable ==> files[i].content == contents[i]
    ensures ReservedBytes(files) == KeptBytes(files, contents)
    ensures Bytes(files) == Bytes(Trimmables(files)) + KeptBytes(files, contents)
  {
    hide ByteLength;
    if files != [] {
      var f, c := Front(files), Front(contents);
      forall i | 0 <= i < |f| && !f[i].trimmable ensures f[i].content == c[i] {
        assert f[i] == files[i] && c[i] == contents[i];
      }
      KeptAre(f, c);
      assert Last(files) == files[|files| - 1] && Last(contents) == contents[|files| - 1];
      assert Front(Trimmables(f) + [Last(files)]) == Trimmables(f);
    }
  }

  function TrimmableTexts(files: seq<BugReportFile>): seq<Text>
    reads files, Trimmables(files)
  {
    Texts(Trimmables(files), IncludesSessionFile(Trimmables(files)))
  }

  lemma {:induction false} TrimmedFilesTakeTheirBytes(files: seq<BugReportFile>, texts: seq<Text>, budget: real)
    requires |texts| == |files| && Weighted(texts) && FewLines(texts) && budget >= 0.0
    requires forall k :: 0 <= k < |files| ==>
               files[k].content
               == Trimmed(texts[k].content, Allocation(ItemOf(texts[k]), TotalsOf(Items(texts), budget)))
    ensures Bytes(files) as real <= budget + 80.0 * TrimmedCount(texts, TotalsOf(Items(texts), budget)) as real
  {
    hide Trimmed, Allocation, TotalsOf, FewLines;
    BytesAre(files, texts, TotalsOf(Items(texts), budget));
    if texts != [] {
      TrimmedFilesFit(texts, budget);
    } else {
      NoneTrimmed(TotalsOf(Items(texts), budget));
    }
  }

  lemma {:induction false} NoneTrimmed(t: Totals)
    ensures TrimmedCount([], t) == 0 && BytesAfter([], t) == 0
  {}

  /**
   * Each trimmable file is cut to its allocation; the others stay. Then the trimmable files take at most the
   * bytes that the others leave, and 80 more for each that was cut; so all files together keep to the budget,
   * with the same addition, when those that may not be trimmed do. Allocations are kept by name.
   */
  method TrimFilesToBudget(files: seq<BugReportFile>, budgetBytes: real)
    requires DistinctNames(Trimmables(files))
    modifies files
    ensures var trimmable := Trimmables(files);
            var inc := IncludesSessionFile(trimmable);
            var t := old(Plan(files, budgetBytes));
            forall f :: f in files ==>
              f.content == if f.trimmable then old(Trimmed(f.content, Allocation(ItemOf(TextOf(f, inc)), t)))
                           else old(f.content)
    ensures old(FewLines(TrimmableTexts(files))) ==>
              Bytes(Trimmables(files)) as real
              <= old(TrimmableBudget(files, budgetBytes))
                 + 80.0 * old(TrimmedCount(TrimmableTexts(files), Plan(files, budgetBytes))) as real
    ensures old(FewLines(TrimmableTexts(files)) && (Bytes(files) - Bytes(Trimmables(files))) as real <= budgetBytes) ==>
              Bytes(files) as real
              <= budgetBytes + 80.0 * old(TrimmedCount(TrimmableTexts(files), Plan(files, budgetBytes))) as real
  {
    hide Allocation, ByteLength, BudgetRatio, Trimmed, TrimmedCount, FewLines, TotalsOf, IncludesSessionFile;
    ghost var trimmable, texts := Trimmables(files), TrimmableTexts(files);
    ghost var budget := TrimmableBudget(files, budgetBytes);
    ghost var contents := seq(|files|, i requires 0 <= i < |files| reads files => files[i].content);
    KeptAre(files, contents);
    TrimmablesAre(files);
    TextsAre(trimmable, IncludesSessionFile(trimmable));
    CutFiles(files, budgetBytes);
    if FewLines(texts) {
      forall k | 0 <= k < |trimmable|
        ensures trimmable[k].content
                == Trimmed(texts[k].content, Allocation(ItemOf(texts[k]), TotalsOf(Items(texts), budget)))
      {
        assert trimmable[k] in trimmable;
      }
      TrimmedFilesTakeTheirBytes(trimmable, texts, budget);
      KeptAre(files, contents);
    }
  }

  /** The body of trimFilesToBudget. */
  method CutFiles(files: seq<BugReportFile>, budgetBytes: real)
    requires DistinctNames(Trimmables(files))
    modifies files
    ensures var trimmable := Trimmables(files);
            var inc := IncludesSessionFile(trimmable);
            var t := old(Plan(files, budgetBytes));
            forall f :: f in files ==>
              f.content == if f.trimmable then old(Trimmed(f.content, Allocation(ItemOf(TextOf(f, inc)), t)))
                           else old(f.content)
  {
    hide Allocation, ByteLength, BudgetRatio, Trimmed, IsSessionTranscriptFile, TotalsOf;
    var reservedBytes := 0;
    for i := 0 to |files|
      invariant reservedBytes == ReservedBytes(files[..i])
    {
      assert Front(files[..i + 1]) == files[..i];
      if !files[i].trimmable {
        reservedBytes := reservedBytes + ByteLength(files[i].content);
      }
    }
    assert files[..|files|] == files;
    var left := budgetBytes - reservedBytes as real;
    var trimmableBudget := if left > 0.0 then left else 0.0;
    var trimmableFiles := Trimmables(files);
    TrimmablesAre(files);
    if |trimmableFiles| == 0 {
      return;
    }
    TrimTrimmable(files, trimmableFiles, trimmableBudget);
  }

  method TrimTrimmable(ghost files: seq<BugReportFile>, trimmableFiles: seq<BugReportFile>, trimmableBudget: real)
    requires DistinctNames(trimmableFiles) && forall f :: f in trimmableFiles ==> f in files
    modifies files
    ensures var inc := IncludesSessionFile(trimmableFiles);
            var t := old(TotalsOf(Items(Texts(trimmableFiles, inc)), trimmableBudget));
            forall f :: f in trimmableFiles ==>
              f.content == old(Trimmed(f.content, Allocation(ItemOf(TextOf(f, inc)), t)))
    ensures forall f :: f in files && f !in trimmableFiles ==> f.content == old(f.content)
  {
    hide TotalsOf, Allocation, ByteLength, BudgetRatio, IsSessionTranscriptFile;
    var includesSessionFile := IncludesSessionFile(trimmableFiles);
    ghost var items := Items(Texts(trimmableFiles, includesSessionFile));
    ItemsOfFiles(trimmableFiles, includesSessionFile);
    var totalWeight := TotalWeight(trimmableFiles, includesSessionFile, items);
    var allocations, unused, oversize :=
      Allocate(trimmableFiles, includesSessionFile, trimmableBudget, totalWeight, items);
    ghost var t := TotalsOf(items, trimmableBudget);
    allocations := Redistribute(trimmableFiles, includesSessionFile, allocations, unused, oversize, items, t);
    TrimEach(files, trimmableFiles, allocations, items, t);
  }

  /** items are the sizes and weights of the files. */
  ghost predicate Describes(items: seq<Item>, files: seq<BugReportFile>, inc: bool)
    reads files
  {
    && |items| == |files|
    && forall k :: 0 <= k < |files| ==> items[k] == ItemOf(TextOf(files[k], inc))
  }

  lemma {:induction false} ItemsOfFiles(files: seq<BugReportFile>, inc: bool)
    ensures Describes(Items(Texts(files, inc)), files, inc)
  {
    TextsAre(files, inc);
    ItemsAre(Texts(files, inc));
  }

  lemma {:induction false} OneMore(items: seq<Item>, i: nat)
    requires i < |items|
    ensures Front(items[..i + 1]) == items[..i] && Last(items[..i + 1]) == items[i]
  {}

  method TotalWeight(files: seq<BugReportFile>, includesSessionFile: bool, ghost items: seq<Item>)
    returns (totalWeight: real)
    requires Describes(items, files, includesSessionFile)
    ensures totalWeight == WeightSum(items)
  {
    totalWeight := 0.0;
    for i := 0 to |files|
      invariant totalWeight == WeightSum(items[..i])
    {
      OneMore(items, i);
      totalWeight := totalWeight + BudgetRatio(files[i].name, includesSessionFile);
    }
    assert items[..|items|] == items;
  }

  /** The first pass: each file gets its size or its share. */
  method Allocate(files: seq<BugReportFile>, includesSessionFile: bool, budget: real, totalWeight: real,
                  ghost items: seq<Item>)
    returns (allocations: map<string, real>, totalUnusedBudget: real, totalRatioOfOversize: real)
    requires DistinctNames(files) && Describes(items, files, includesSessionFile)
    requires totalWeight == WeightSum(items)
    ensures var t := TotalsOf(items, budget);
            && totalUnusedBudget == t.unused && totalRatioOfOversize == t.oversize
            && forall k :: 0 <= k < |files| ==>
                 files[k].name in allocations && allocations[files[k].name] == FirstPass(items[k], t)
  {
    hide ByteLength, BudgetRatio, Share, WeightSum;
    ghost var t := TotalsOf(items, budget);
    allocations := map[];
    totalUnusedBudget, totalRatioOfOversize := 0.0, 0.0;
    for i := 0 to |files|
      invariant totalUnusedBudget == UnusedSum(items[..i], budget, totalWeight)
      invariant totalRatioOfOversize == OversizeSum(items[..i], budget, totalWeight)
      invariant forall k :: 0 <= k < i ==>
                  files[k].name in allocations && allocations[files[k].name] == FirstPass(items[k], t)
    {
      OneMore(items, i);
      var ratio := BudgetRatio(files[i].name, includesSessionFile);
      var fileSize := ByteLength(files[i].content) as real;
      assert items[i] == ItemOf(TextOf(files[i], includesSessionFile)) == Item(fileSize, ratio);
      var allocation := Share(Item(fileSize, ratio), budget, totalWeight);
      if fileSize <= allocation {
        allocations := allocations[files[i].name := fileSize];
        totalUnusedBudget := totalUnusedBudget + (allocation - fileSize);
      } else {
        allocations := allocations[files[i].name := allocation];
        totalRatioOfOversize := totalRatioOfOversize + ratio;
      }
    }
    assert items[..|items|] == items;
  }

  /** The second pass: what is unused goes to the files above their share. */
  method Redistribute(files: seq<BugReportFile>, includesSessionFile: bool, first: map<string, real>,
                      totalUnusedBudget: real, totalRatioOfOversize: real, ghost items: seq<Item>, ghost t: Totals)
    returns (allocations: map<string, real>)
    requires DistinctNames(files) && Describes(items, files, includesSessionFile)
    requires totalUnusedBudget == t.unused && totalRatioOfOversize == t.oversize
    requires forall k :: 0 <= k < |files| ==>
               files[k].name in first && first[files[k].name] == FirstPass(items[k], t)
    ensures forall k :: 0 <= k < |files| ==>
              files[k].name in allocations && allocations[files[k].name] == Allocation(items[k], t)
  {
    hide ByteLength, BudgetRatio, Share, FirstPass;
    allocations := first;
    if totalUnusedBudget > 0.0 && totalRatioOfOversize > 0.0 {
      for i := 0 to |files|
        invariant forall k :: 0 <= k < |files| ==>
                    && files[k].name in allocations
                    && allocations[files[k].name] ==
                       if k < i then Allocation(items[k], t) else FirstPass(items[k], t)
      {
        var fileSize := ByteLength(files[i].content) as real;
        var currentAllocation := allocations[files[i].name];
        if fileSize > currentAllocation {
          var ratio := BudgetRatio(files[i].name, includesSessionFile);
          var extraBudget := totalUnusedBudget * (ratio / totalRatioOfOversize);
          allocations := allocations[files[i].name := currentAllocation + extraBudget];
        }
      }
    }
  }

  method TrimEach(ghost all: seq<BugReportFile>, files: seq<BugReportFile>, allocations: map<string, real>,
                  ghost items: seq<Item>, ghost t: Totals)
    requires DistinctNames(files) && |items| == |files| && forall f :: f in files ==> f in all
    requires forall k :: 0 <= k < |files| ==>
               files[k].name in allocations && allocations[files[k].name] == Allocation(items[k], t)
    modifies all
    ensures forall k :: 0 <= k < |files| ==>
              files[k].content == old(Trimmed(files[k].content, Allocation(items[k], t)))
    ensures forall f :: f in all && f !in files ==> f.content == old(f.content)
  {
    hide ByteLength, Allocation, Trimmed;
    for i := 0 to |files|
      invariant forall k :: 0 <= k < i ==>
                  files[k].content == old(Trimmed(files[k].content, Allocation(items[k], t)))
      invariant forall k :: i <= k < |files| ==> files[k].content == old(files[k].content)
      invariant forall f :: f in all && f !in files ==> f.content == old(f.content)
    {
      assert files[i] in files;
      var maxBytes := allocations[files[i].name];
      if ByteLength(files[i].content) as real > maxBytes {
        files[i].content := TrimToTail(files[i].content, maxBytes);
      } else {
        FitsUnchanged(files[i].content, maxBytes);
      }
    }
  }
}
