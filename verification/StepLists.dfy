/**
 * The step list of a message sequence: the checks `replaceSteps` makes before it
 * stores a list, and what an accepted list means for the engine that reads it.
 */
module StepLists {
  import opened Prelude

  datatype Channel = WHATSAPP | EMAIL

  datatype StepDef = StepDef(orderIndex: int, channel: Channel, templateId: int, delayMinutes: int)

  datatype StepError =
    | SEQUENCE_NOT_EDITABLE
    | ORDER_HAS_GAPS
    | DELAYS_NOT_INCREASING
    | TEMPLATE_NOT_FOUND
    | TEMPLATE_CHANNEL_MISMATCH

  /** What the caller has to send, said of the list in the order it was sent. */
  ghost predicate OrderIsPermutation(steps: seq<StepDef>) {
    && (forall i :: 0 <= i < |steps| ==> 0 <= steps[i].orderIndex < |steps|)
    && (forall i, j :: 0 <= i < j < |steps| ==> steps[i].orderIndex != steps[j].orderIndex)
  }

  ghost predicate DelaysFollowOrder(steps: seq<StepDef>) {
    forall i, j :: 0 <= i < |steps| && 0 <= j < |steps| && steps[i].orderIndex < steps[j].orderIndex
      ==> steps[i].delayMinutes < steps[j].delayMinutes
  }

  predicate TemplateOk(templates: map<int, Channel>, step: StepDef) {
    step.templateId in templates && templates[step.templateId] == step.channel
  }

  /** What the engine relies on: position and `orderIndex` agree, later steps come later. */
  ghost predicate WellOrdered(steps: seq<StepDef>) {
    && (forall k :: 0 <= k < |steps| ==> steps[k].orderIndex == k)
    && (forall j, k :: 0 <= j < k < |steps| ==> steps[j].delayMinutes < steps[k].delayMinutes)
  }

  // ----- the stable sort by orderIndex -----

  function Insert(x: StepDef, s: seq<StepDef>): (r: seq<StepDef>)
    ensures multiset(r) == multiset(s) + multiset{x}
  {
    if s == [] || x.orderIndex <= s[0].orderIndex then
      assert [x] + s == [x] + s;
      [x] + s
    else
      assert s == [s[0]] + s[1..];
      [s[0]] + Insert(x, s[1..])
  }

  function SortByOrder(s: seq<StepDef>): (r: seq<StepDef>)
    ensures multiset(r) == multiset(s)
    ensures |r| == |s|
  {
    if s == [] then []
    else
      assert s == [s[0]] + s[1..];
      var r := Insert(s[0], SortByOrder(s[1..]));
      assert |multiset(r)| == |multiset(s)|;
      r
  }

  ghost predicate Ordered(s: seq<StepDef>) {
    forall i, j :: 0 <= i < j < |s| ==> s[i].orderIndex <= s[j].orderIndex
  }

  lemma {:induction false} InsertKeepsOrder(x: StepDef, s: seq<StepDef>)
    requires Ordered(s)
    ensures Ordered(Insert(x, s))
  {
    if s != [] && x.orderIndex > s[0].orderIndex {
      InsertKeepsOrder(x, s[1..]);
      var t := Insert(x, s[1..]);
      forall k | 0 <= k < |t| ensures s[0].orderIndex <= t[k].orderIndex {
        assert t[k] in multiset(t);
        assert t[k] == x || t[k] in s[1..];
      }
    }
  }

  lemma {:induction false} SortIsOrdered(s: seq<StepDef>)
    ensures Ordered(SortByOrder(s))
  {
    if s != [] {
      SortIsOrdered(s[1..]);
      InsertKeepsOrder(s[0], SortByOrder(s[1..]));
    }
  }

  // ----- distinct order indexes survive a permutation -----

  function Keys(s: seq<StepDef>): (r: seq<int>)
    ensures |r| == |s| && forall i :: 0 <= i < |s| ==> r[i] == s[i].orderIndex
  {
    seq(|s|, i requires 0 <= i < |s| => s[i].orderIndex)
  }

  lemma KeysCons(x: StepDef, s: seq<StepDef>)
    ensures multiset(Keys([x] + s)) == multiset{x.orderIndex} + multiset(Keys(s))
  {
    assert Keys([x] + s) == [x.orderIndex] + Keys(s);
  }

  lemma {:induction false} InsertKeys(x: StepDef, s: seq<StepDef>)
    ensures multiset(Keys(Insert(x, s))) == multiset(Keys(s)) + multiset{x.orderIndex}
  {
    hide Keys;
    if s == [] || x.orderIndex <= s[0].orderIndex {
      KeysCons(x, s);
    } else {
      InsertKeys(x, s[1..]);
      KeysCons(s[0], Insert(x, s[1..]));
      KeysCons(s[0], s[1..]);
      assert s == [s[0]] + s[1..];
    }
  }

  lemma {:induction false} SortKeys(s: seq<StepDef>)
    ensures multiset(Keys(SortByOrder(s))) == multiset(Keys(s))
  {
    hide Keys, Insert;
    if s != [] {
      SortKeys(s[1..]);
      InsertKeys(s[0], SortByOrder(s[1..]));
      KeysCons(s[0], s[1..]);
      assert s == [s[0]] + s[1..];
    }
  }

  lemma RepeatCounted(s: seq<int>, i: nat, j: nat)
    requires i < j < |s| && s[i] == s[j]
    ensures multiset(s)[s[i]] >= 2
  {
    assert s == s[..j] + [s[j]] + s[j + 1..];
    assert s[..j][i] == s[i];
    assert s[i] in multiset(s[..j]);
  }

  lemma {:induction false} DistinctByCount(s: seq<int>)
    ensures Distinct(s) <==> forall v :: v in s ==> multiset(s)[v] == 1
  {
    if !Distinct(s) {
      var i, j :| 0 <= i < j < |s| && s[i] == s[j];
      RepeatCounted(s, i, j);
    } else if |s| > 0 {
      assert s == [s[0]] + s[1..];
      DistinctByCount(s[1..]);
      assert s[0] !in s[1..];
      forall v | v in s ensures multiset(s)[v] == 1 {
        if v != s[0] { assert v in s[1..]; }
      }
    }
  }

  lemma DistinctUnderPermutation(s: seq<int>, t: seq<int>)
    requires multiset(s) == multiset(t) && Distinct(s)
    ensures Distinct(t)
  {
    DistinctByCount(s);
    DistinctByCount(t);
    forall v | v in t ensures multiset(t)[v] == 1 {
      assert v in multiset(s);
    }
  }

  lemma {:induction false} AtLeastIndex(s: seq<int>, k: nat)
    requires k < |s|
    requires forall i, j :: 0 <= i < j < |s| ==> s[i] < s[j]
    requires s[0] >= 0
    ensures s[k] >= k
  {
    if k > 0 { AtLeastIndex(s, k - 1); }
  }

  lemma {:induction false} AtMostIndex(s: seq<int>, k: nat)
    requires k < |s|
    requires forall i, j :: 0 <= i < j < |s| ==> s[i] < s[j]
    requires s[|s| - 1] < |s|
    ensures s[k] <= k
    decreases |s| - k
  {
    if k < |s| - 1 { AtMostIndex(s, k + 1); }
  }

  ghost predicate Contiguous(s: seq<StepDef>) {
    forall k :: 0 <= k < |s| ==> s[k].orderIndex == k
  }

  ghost predicate RisingDelays(s: seq<StepDef>) {
    forall k :: 0 < k < |s| ==> s[k - 1].delayMinutes < s[k].delayMinutes
  }

  lemma PermutationIsContiguous(steps: seq<StepDef>)
    requires OrderIsPermutation(steps)
    ensures Contiguous(SortByOrder(steps))
  {
    var keys := Keys(SortByOrder(steps));
    SortIsOrdered(steps);
    SortKeys(steps);
    DistinctUnderPermutation(Keys(steps), keys);
    forall k | 0 <= k < |keys| ensures 0 <= keys[k] < |steps| {
      assert keys[k] in multiset(Keys(steps));
    }
    forall k | 0 <= k < |keys| ensures keys[k] == k {
      AtLeastIndex(keys, k);
      AtMostIndex(keys, k);
    }
  }

  lemma ContiguousIsPermutation(steps: seq<StepDef>)
    requires Contiguous(SortByOrder(steps))
    ensures OrderIsPermutation(steps)
  {
    var keys := Keys(SortByOrder(steps));
    SortKeys(steps);
    DistinctUnderPermutation(keys, Keys(steps));
    forall i | 0 <= i < |steps| ensures 0 <= steps[i].orderIndex < |steps| {
      assert Keys(steps)[i] in multiset(keys);
    }
    forall i, j | 0 <= i < j < |steps| ensures steps[i].orderIndex != steps[j].orderIndex {
      assert Keys(steps)[i] != Keys(steps)[j];
    }
  }

  /** In an accepted list the step sent with `orderIndex` i is stored at position i. */
  lemma SentIsSorted(steps: seq<StepDef>, i: nat)
    requires OrderIsPermutation(steps) && i < |steps|
    ensures SortByOrder(steps)[steps[i].orderIndex] == steps[i]
  {
    PermutationIsContiguous(steps);
    assert steps[i] in multiset(SortByOrder(steps));
    var k :| 0 <= k < |steps| && SortByOrder(steps)[k] == steps[i];
  }

  lemma {:induction false} ChainOfDelays(s: seq<StepDef>, j: nat, k: nat)
    requires j < k < |s| && RisingDelays(s)
    ensures s[j].delayMinutes < s[k].delayMinutes
  {
    if j < k - 1 { ChainOfDelays(s, j, k - 1); }
  }

  /** Comparing neighbours of the sorted list decides the delay rule on the list as sent. */
  lemma RisingMeansDelaysFollow(steps: seq<StepDef>)
    requires OrderIsPermutation(steps) && RisingDelays(SortByOrder(steps))
    ensures DelaysFollowOrder(steps)
  {
    forall i, j | 0 <= i < |steps| && 0 <= j < |steps| && steps[i].orderIndex < steps[j].orderIndex
      ensures steps[i].delayMinutes < steps[j].delayMinutes
    {
      SentIsSorted(steps, i);
      SentIsSorted(steps, j);
      ChainOfDelays(SortByOrder(steps), steps[i].orderIndex, steps[j].orderIndex);
    }
  }

  lemma DelaysFollowMeansRising(steps: seq<StepDef>)
    requires OrderIsPermutation(steps) && DelaysFollowOrder(steps)
    ensures RisingDelays(SortByOrder(steps))
  {
    var sorted := SortByOrder(steps);
    PermutationIsContiguous(steps);
    forall k | 0 < k < |sorted| ensures sorted[k - 1].delayMinutes < sorted[k].delayMinutes {
      assert sorted[k - 1] in multiset(steps) && sorted[k] in multiset(steps);
      var i :| 0 <= i < |steps| && steps[i] == sorted[k - 1];
      var j :| 0 <= j < |steps| && steps[j] == sorted[k];
      assert steps[i].orderIndex < steps[j].orderIndex;
    }
  }

  /** The two ordering loops accept a list exactly when its indexes permute 0..N-1 with rising delays. */
  lemma OrderChecksDecide(steps: seq<StepDef>)
    ensures Contiguous(SortByOrder(steps)) <==> OrderIsPermutation(steps)
    ensures OrderIsPermutation(steps) ==>
              (RisingDelays(SortByOrder(steps)) <==> DelaysFollowOrder(steps))
    ensures OrderIsPermutation(steps) && DelaysFollowOrder(steps) ==> WellOrdered(SortByOrder(steps))
  {
    var sorted := SortByOrder(steps);
    if OrderIsPermutation(steps) {
      PermutationIsContiguous(steps);
      if DelaysFollowOrder(steps) {
        DelaysFollowMeansRising(steps);
        forall j, k | 0 <= j < k < |sorted| ensures sorted[j].delayMinutes < sorted[k].delayMinutes {
          ChainOfDelays(sorted, j, k);
        }
      }
      if RisingDelays(sorted) { RisingMeansDelaysFollow(steps); }
    }
    if Contiguous(sorted) { ContiguousIsPermutation(steps); }
  }

  ghost predicate Accepted(templates: map<int, Channel>, steps: seq<StepDef>) {
    && OrderIsPermutation(steps)
    && DelaysFollowOrder(steps)
    && (forall s :: s in steps ==> TemplateOk(templates, s))
  }

  lemma SameSteps(steps: seq<StepDef>)
    ensures forall s :: s in steps <==> s in SortByOrder(steps)
  {
    assert forall s :: s in steps <==> s in multiset(steps);
    assert forall s :: s in SortByOrder(steps) <==> s in multiset(SortByOrder(steps));
  }

  /** The template loop stops at the first step, in order, that is not in order with its template; that step decides. */
  ghost predicate TemplateFailure(templates: map<int, Channel>, sorted: seq<StepDef>, e: StepError) {
    exists j :: 0 <= j < |sorted| && !TemplateOk(templates, sorted[j])
      && (forall k :: 0 <= k < j ==> TemplateOk(templates, sorted[k]))
      && e == if sorted[j].templateId !in templates then TEMPLATE_NOT_FOUND else TEMPLATE_CHANNEL_MISMATCH
  }

  method CheckTemplates(templates: map<int, Channel>, steps: seq<StepDef>) returns (e: Option<StepError>)
    ensures e.None? <==> forall s :: s in steps ==> TemplateOk(templates, s)
    ensures e.Some? ==> TemplateFailure(templates, steps, e.value)
  {
    for j := 0 to |steps|
      invariant forall k :: 0 <= k < j ==> TemplateOk(templates, steps[k])
    {
      var step := steps[j];
      assert step in steps;
      if step.templateId !in templates { return Some(TEMPLATE_NOT_FOUND); }
      if templates[step.templateId] != step.channel { return Some(TEMPLATE_CHANNEL_MISMATCH); }
    }
    return None;
  }

  method CheckContiguous(sorted: seq<StepDef>) returns (ok: bool)
    ensures ok <==> Contiguous(sorted)
  {
    for i := 0 to |sorted|
      invariant forall k :: 0 <= k < i ==> sorted[k].orderIndex == k
    {
      if sorted[i].orderIndex != i { return false; }
    }
    return true;
  }

  method CheckRising(sorted: seq<StepDef>) returns (ok: bool)
    ensures ok <==> RisingDelays(sorted)
  {
    var i := 1;
    while i < |sorted|
      invariant i >= 1
      invariant forall k :: 0 < k < i && k < |sorted| ==> sorted[k - 1].delayMinutes < sorted[k].delayMinutes
    {
      if sorted[i].delayMinutes <= sorted[i - 1].delayMinutes { return false; }
      i := i + 1;
    }
    return true;
  }

  /** The three validation loops of `replaceSteps`, in the source's order. */
  method CheckSteps(templates: map<int, Channel>, steps: seq<StepDef>)
    returns (r: Result<seq<StepDef>, StepError>)
    ensures r.Ok? <==> Accepted(templates, steps)
    ensures r.Ok? ==> r.value == SortByOrder(steps) && WellOrdered(r.value)
    ensures r == Err(ORDER_HAS_GAPS) <==> !OrderIsPermutation(steps)
    ensures r == Err(DELAYS_NOT_INCREASING) <==> OrderIsPermutation(steps) && !DelaysFollowOrder(steps)
    ensures r.Err? && OrderIsPermutation(steps) && DelaysFollowOrder(steps) ==>
              TemplateFailure(templates, SortByOrder(steps), r.error)
  {
    var sorted := SortByOrder(steps);
    OrderChecksDecide(steps);
    SameSteps(steps);
    var contiguous := CheckContiguous(sorted);
    if !contiguous { return Err(ORDER_HAS_GAPS); }
    var rising := CheckRising(sorted);
    if !rising { return Err(DELAYS_NOT_INCREASING); }
    var failure := CheckTemplates(templates, sorted);
    if failure.Some? { return Err(failure.value); }
    r := Ok(sorted);
  }
}
