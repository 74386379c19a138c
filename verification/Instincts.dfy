/** Evidence references and the upsert of team instincts: what a stored row is after any history of upserts. */
module Instincts {
  import opened Options
  import opened Decimal
  import opened Text

  /** The trimmed, non-empty references. */
  function Trimmed(refs: seq<string>): seq<string> {
    if refs == [] then []
    else Trimmed(refs[..|refs| - 1]) + if Strip(refs[|refs| - 1]) == "" then [] else [Strip(refs[|refs| - 1])]
  }

  /** First occurrences, in order. */
  function Dedup(refs: seq<string>): seq<string> {
    if refs == [] then []
    else
      var before := Dedup(refs[..|refs| - 1]);
      if refs[|refs| - 1] in before then before else before + [refs[|refs| - 1]]
  }

  function Normalized(refs: seq<string>): seq<string> { Dedup(Trimmed(refs)) }

  function Concat(groups: seq<seq<string>>): seq<string> {
    if groups == [] then [] else Concat(groups[..|groups| - 1]) + groups[|groups| - 1]
  }

  // ---- What first-occurrence de-duplication means ----

  function FirstIndex(refs: seq<string>, x: string): (i: nat)
    requires x in refs
    ensures i < |refs| && refs[i] == x && forall k :: 0 <= k < i ==> refs[k] != x
  {
    if refs[0] == x then 0 else 1 + FirstIndex(refs[1..], x)
  }

  lemma FirstIndexPrefix(refs: seq<string>, more: seq<string>, x: string)
    requires x in refs
    ensures x in refs + more && FirstIndex(refs + more, x) == FirstIndex(refs, x)
  {
    var i, j := FirstIndex(refs, x), FirstIndex(refs + more, x);
    assert (refs + more)[i] == x;
  }

  /** No reference twice, exactly the references given, each standing where it first appeared relative to the others. */
  lemma {:induction false} DedupMeaning(refs: seq<string>)
    ensures forall x :: x in Dedup(refs) <==> x in refs
    ensures forall i, j :: 0 <= i < j < |Dedup(refs)| ==> Dedup(refs)[i] != Dedup(refs)[j]
    ensures forall i, j :: 0 <= i < j < |Dedup(refs)| ==> FirstIndex(refs, Dedup(refs)[i]) < FirstIndex(refs, Dedup(refs)[j])
  {
    if refs != [] {
      var init, last := refs[..|refs| - 1], refs[|refs| - 1];
      var before := Dedup(init);
      DedupMeaning(init);
      assert refs == init + [last];
      forall i, j | 0 <= i < j < |Dedup(refs)| ensures FirstIndex(refs, Dedup(refs)[i]) < FirstIndex(refs, Dedup(refs)[j]) {
        FirstIndexPrefix(init, [last], Dedup(refs)[i]);
        if j < |before| { FirstIndexPrefix(init, [last], Dedup(refs)[j]); }
      }
    }
  }

  // ---- Trimming and merging ----

  lemma {:induction false} TrimmedConcat(a: seq<string>, b: seq<string>)
    ensures Trimmed(a + b) == Trimmed(a) + Trimmed(b)
  {
    if b == [] {
      assert a + b == a;
    } else {
      assert (a + b)[..|a + b| - 1] == a + b[..|b| - 1];
      TrimmedConcat(a, b[..|b| - 1]);
    }
  }

  lemma {:induction false} DedupAgain(a: seq<string>, b: seq<string>)
    ensures Dedup(Dedup(a) + b) == Dedup(a + b)
  {
    if b == [] {
      assert a + b == a && Dedup(a) + b == Dedup(a);
      DedupFixed(Dedup(a));
      DedupMeaning(a);
    } else {
      assert (a + b)[..|a + b| - 1] == a + b[..|b| - 1];
      assert (Dedup(a) + b)[..|Dedup(a) + b| - 1] == Dedup(a) + b[..|b| - 1];
      DedupAgain(a, b[..|b| - 1]);
    }
  }

  lemma {:induction false} DedupFixed(s: seq<string>)
    ensures (forall i, j :: 0 <= i < j < |s| ==> s[i] != s[j]) ==> Dedup(s) == s
  {
    if s != [] {
      DedupFixed(s[..|s| - 1]);
      DedupMeaning(s[..|s| - 1]);
    }
  }

  lemma {:induction false} DedupOfDedups(a: seq<string>, b: seq<string>)
    ensures Dedup(a + Dedup(b)) == Dedup(a + b)
  {
    if b != [] {
      hide Dedup;
      var init, last := b[..|b| - 1], b[|b| - 1];
      DedupOfDedups(a, init);
      assert b == init + [last] && a + b == (a + init) + [last];
      DedupAppend(init, last);
      DedupAppend(a + init, last);
      if last !in init {
        assert a + Dedup(b) == (a + Dedup(init)) + [last];
        DedupAppend(a + Dedup(init), last);
        DedupMeaning(init);
      }
    }
  }

  lemma DedupAppend(s: seq<string>, x: string)
    ensures Dedup(s + [x]) == if x in s then Dedup(s) else Dedup(s) + [x]
  {
    assert (s + [x])[..|s|] == s;
    DedupMeaning(s);
  }

  /** Trimming a list of trimmed references changes nothing. */
  lemma {:induction false} TrimmedFixed(refs: seq<string>)
    ensures forall x :: x in Trimmed(refs) ==> Strip(x) == x && x != ""
  {
    if refs != [] {
      TrimmedFixed(refs[..|refs| - 1]);
      StripTwice(refs[|refs| - 1]);
    }
  }

  lemma {:induction false} TrimmedSame(refs: seq<string>)
    requires forall x :: x in refs ==> Strip(x) == x && x != ""
    ensures Trimmed(refs) == refs
  {
    hide Strip;
    if refs != [] {
      var init, last := refs[..|refs| - 1], refs[|refs| - 1];
      assert forall x :: x in init ==> x in refs;
      assert last in refs;
      assert refs == init + [last];
      TrimmedSame(init);
    }
  }

  lemma {:induction false} StripLeftEnds(s: string)
    ensures var t := StripLeft(s); t == "" || !IsSpace(t[0])
  {
    if s != [] && IsSpace(s[0]) { StripLeftEnds(s[1..]); }
  }

  lemma {:induction false} StripRightEnds(s: string)
    requires s == "" || !IsSpace(s[0])
    ensures var t := StripRight(s);
            t == "" || (!IsSpace(t[|t| - 1]) && !IsSpace(t[0]))
  {
    if s != [] && IsSpace(s[|s| - 1]) { StripRightEnds(s[..|s| - 1]); }
  }

  lemma StripTwice(s: string)
    ensures Strip(Strip(s)) == Strip(s)
  {
    StripLeftEnds(s);
    StripRightEnds(StripLeft(s));
  }

  lemma NormalizedFixed(refs: seq<string>)
    ensures Normalized(Normalized(refs)) == Normalized(refs)
  {
    TrimmedFixed(refs);
    DedupMeaning(Trimmed(refs));
    TrimmedSame(Normalized(refs));
    DedupFixed(Normalized(refs));
  }

  /** Each reference goes in without the blanks around it, in its place, unless it is blank. */
  lemma EachIsTrimmed(a: seq<string>, r: string, b: seq<string>)
    ensures Trimmed(a + [r] + b) == Trimmed(a) + (if Strip(r) == "" then [] else [Strip(r)]) + Trimmed(b)
  {
    hide Strip;
    TrimmedConcat(a + [r], b);
    TrimmedConcat(a, [r]);
    assert [r][..0] == [] && Trimmed([]) == [];
  }

  /** Merging normalized groups is normalizing everything at once. */
  lemma MergeMeans(a: seq<string>, b: seq<string>)
    ensures Dedup(Normalized(a) + Normalized(b)) == Normalized(a + b)
  {
    TrimmedConcat(a, b);
    DedupAgain(Trimmed(a), Normalized(b));
    DedupOfDedups(Trimmed(a), Trimmed(b));
  }

  // ---- Rows ----

  datatype Draft = Draft(id: string, body: string, confidence: real, refs: seq<string>, status: string, created: nat, validated: nat)

  datatype Row = Row(body: string, confidence: real, refs: seq<string>, status: string, created: nat, validated: nat)

  function Clamp(c: real): real { if c < 0.0 then 0.0 else if c > 1.0 then 1.0 else c }

  /** The row one upsert leaves, given the row before it. */
  function Upserted(row: Option<Row>, d: Draft): Row {
    match row
    case None => Row(d.body, Clamp(d.confidence), Normalized(d.refs), d.status, d.created, d.validated)
    case Some(r) =>
      Row(d.body, Max(Clamp(r.confidence), Clamp(d.confidence)), Dedup(Normalized(r.refs) + Normalized(Normalized(d.refs))),
          if r.status == "active" && d.status == "candidate" then "active" else d.status, r.created, d.validated)
  }

  function Lookup(rows: map<string, Row>, id: string): Option<Row> { if id in rows then Some(rows[id]) else None }

  function Upsert(rows: map<string, Row>, d: Draft): map<string, Row> { rows[d.id := Upserted(Lookup(rows, d.id), d)] }

  function UpsertAll(drafts: seq<Draft>): map<string, Row> {
    if drafts == [] then map[] else Upsert(UpsertAll(drafts[..|drafts| - 1]), drafts[|drafts| - 1])
  }

  /** The upserts of one instinct, in order. */
  function For(drafts: seq<Draft>, id: string): seq<Draft> {
    if drafts == [] then []
    else For(drafts[..|drafts| - 1], id) + if drafts[|drafts| - 1].id == id then [drafts[|drafts| - 1]] else []
  }

  function AllRefs(drafts: seq<Draft>): seq<string> {
    if drafts == [] then [] else AllRefs(drafts[..|drafts| - 1]) + drafts[|drafts| - 1].refs
  }

  /** The newest status that is not "candidate", with its position. */
  function Decisive(drafts: seq<Draft>): (r: Option<nat>)
    ensures r.Some? ==> r.value < |drafts| && drafts[r.value].status != "candidate"
    ensures forall i: nat :: (if r.Some? then r.value + 1 else 0) <= i < |drafts| ==> drafts[i].status == "candidate"
  {
    if drafts == [] then None
    else if drafts[|drafts| - 1].status != "candidate" then Some(|drafts| - 1)
    else Decisive(drafts[..|drafts| - 1])
  }

  /** Candidates never demote an active instinct; any other status is replaced by whatever comes next. */
  function StatusAfter(drafts: seq<Draft>): string
    requires drafts != []
  {
    var d := Decisive(drafts);
    if d.Some? && (drafts[d.value].status == "active" || d.value == |drafts| - 1) then drafts[d.value].status else "candidate"
  }

  /** A confidence between nought and one as it is, a smaller one as nought, a larger one as one. */
  predicate Counts(confidence: real, c: real) {
    && 0.0 <= c <= 1.0
    && (0.0 <= confidence <= 1.0 ==> c == confidence) && (confidence < 0.0 ==> c == 0.0) && (confidence > 1.0 ==> c == 1.0)
  }

  /** The confidence is the largest that any of the upserts counts for. */
  ghost predicate IsMaxConfidence(c: real, drafts: seq<Draft>) {
    && (forall i, d :: 0 <= i < |drafts| && Counts(drafts[i].confidence, d) ==> d <= c)
    && (exists i :: 0 <= i < |drafts| && Counts(drafts[i].confidence, c))
  }

  lemma ClampCounts(confidence: real)
    ensures forall c :: Counts(confidence, c) <==> c == Clamp(confidence)
  {}

  /** The stored row is determined by the whole history of its instinct's upserts. */
  ghost predicate Folded(row: Row, drafts: seq<Draft>)
    requires drafts != []
  {
    var last := drafts[|drafts| - 1];
    && row.body == last.body && row.validated == last.validated
    && row.created == drafts[0].created
    && IsMaxConfidence(row.confidence, drafts)
    && row.refs == Normalized(AllRefs(drafts))
    && row.status == StatusAfter(drafts)
  }

  lemma StatusStep(drafts: seq<Draft>, d: Draft)
    requires drafts != []
    ensures StatusAfter(drafts + [d]) ==
            if StatusAfter(drafts) == "active" && d.status == "candidate" then "active" else d.status
  {
    assert (drafts + [d])[..|drafts|] == drafts;
  }

  lemma ConfidenceStep(row: Row, drafts: seq<Draft>, d: Draft)
    requires drafts != [] && IsMaxConfidence(row.confidence, drafts)
    ensures IsMaxConfidence(Max(Clamp(row.confidence), Clamp(d.confidence)), drafts + [d])
  {
    var all := drafts + [d];
    hide Clamp, Counts;
    var i :| 0 <= i < |drafts| && Counts(drafts[i].confidence, row.confidence);
    forall k | 0 <= k < |all| ensures Counts(all[k].confidence, Clamp(all[k].confidence))
      ensures forall c :: Counts(all[k].confidence, c) ==> c == Clamp(all[k].confidence) { ClampCounts(all[k].confidence); }
    ClampAgain(row.confidence, drafts[i].confidence);
    assert all[i] == drafts[i] && all[|drafts|] == d;
    var m := Max(Clamp(row.confidence), Clamp(d.confidence));
    assert Counts(all[if m == row.confidence then i else |drafts|].confidence, m);
  }

  lemma ClampAgain(c: real, confidence: real)
    requires Counts(confidence, c)
    ensures Clamp(c) == c
  {}

  lemma FoldStep(row: Row, drafts: seq<Draft>, d: Draft)
    requires drafts != [] && Folded(row, drafts)
    ensures Folded(Upserted(Some(row), d), drafts + [d])
  {
    hide IsMaxConfidence, StatusAfter, Normalized, Dedup, Trimmed;
    StatusStep(drafts, d);
    ConfidenceStep(row, drafts, d);
    assert (drafts + [d])[..|drafts|] == drafts;
    NormalizedFixed(AllRefs(drafts));
    NormalizedFixed(d.refs);
    MergeMeans(AllRefs(drafts), d.refs);
  }

  lemma FirstUpsert(d: Draft)
    ensures Folded(Upserted(None, d), [d])
  {
    assert [d][..0] == [];
    assert AllRefs([d]) == d.refs;
    ClampCounts(d.confidence);
    assert [d][0] == d;
  }

  /**
   After any sequence of upserts, for any instincts: an instinct is stored exactly if it was upserted, and its row is
   the fold of its own upserts.
   */
  lemma {:induction false} StoredIsFold(drafts: seq<Draft>, id: string)
    ensures id in UpsertAll(drafts) <==> For(drafts, id) != []
    ensures id in UpsertAll(drafts) ==> Folded(UpsertAll(drafts)[id], For(drafts, id))
  {
    hide Folded, Upserted;
    if drafts != [] {
      var init, last := drafts[..|drafts| - 1], drafts[|drafts| - 1];
      StoredIsFold(init, id);
      if last.id == id {
        if For(init, id) == [] {
          FirstUpsert(last);
          assert For(drafts, id) == [last];
        } else {
          FoldStep(UpsertAll(init)[id], For(init, id), last);
        }
      } else {
        assert For(drafts, id) == For(init, id);
      }
    }
  }

  /** Once active, an instinct stays active through any number of candidate upserts. */
  lemma ActiveNotDemoted(drafts: seq<Draft>, more: seq<Draft>, id: string)
    requires id in UpsertAll(drafts) && UpsertAll(drafts)[id].status == "active"
    requires forall i :: 0 <= i < |more| ==> more[i].status == "candidate"
    ensures id in UpsertAll(drafts + more) && UpsertAll(drafts + more)[id].status == "active"
    decreases |more|
  {
    if more == [] {
      assert drafts + more == drafts;
    } else {
      assert (drafts + more)[..|drafts + more| - 1] == drafts + more[..|more| - 1];
      ActiveNotDemoted(drafts, more[..|more| - 1], id);
    }
  }
}

/** The loops over references, and the table of instincts. */
module InstinctLedgerObject {
  import opened Options
  import opened Decimal
  import opened Text
  import opened Instincts

  /** `_normalize_evidence_refs`, with the list it builds and the set it checks. */
  method NormalizeRefs(raw: seq<string>) returns (refs: seq<string>)
    ensures refs == Normalized(raw)
  {
    refs := [];
    var seen: set<string> := {};
    for i := 0 to |raw|
      invariant refs == Normalized(raw[..i])
      invariant forall x :: x in seen <==> x in refs
    {
      hide Strip, Normalized;
      var ref := Strip(raw[i]);
      StepNormalized(raw[..i], raw[i]);
      assert raw[..i] + [raw[i]] == raw[..i + 1];
      if ref == "" || ref in seen {
        continue;
      }
      refs := refs + [ref];
      seen := seen + {ref};
    }
    assert raw[..|raw|] == raw;
  }

  lemma StepNormalized(refs: seq<string>, x: string)
    ensures Normalized(refs + [x]) ==
            if Strip(x) == "" || Strip(x) in Normalized(refs) then Normalized(refs) else Normalized(refs) + [Strip(x)]
  {
    assert (refs + [x])[..|refs|] == refs;
    var t := Trimmed(refs);
    if Strip(x) != "" {
      DedupAppend(t, Strip(x));
      DedupMeaning(t);
    } else {
      assert Trimmed(refs + [x]) == t;
    }
  }

  /** `_merge_evidence_refs`: the groups in turn, each normalized, first occurrences kept. */
  method MergeRefs(groups: seq<seq<string>>) returns (merged: seq<string>)
    ensures merged == Normalized(Concat(groups))
  {
    merged := [];
    assert Concat(groups[..0]) == [];
    for g := 0 to |groups|
      invariant merged == Normalized(Concat(groups[..g]))
    {
      hide Normalized;
      assert groups[..g + 1][..g] == groups[..g];
      var refs := NormalizeRefs(groups[g]);
      MergeMeans(Concat(groups[..g]), groups[g]);
      NormalizedIsDedup(Concat(groups[..g]));
      merged := AddNew(merged, refs);
    }
    assert groups[..|groups|] == groups;
  }

  method AddNew(before: seq<string>, refs: seq<string>) returns (merged: seq<string>)
    requires Dedup(before) == before
    ensures merged == Dedup(before + refs)
  {
    hide Dedup;
    merged := before;
    var seen := set x | x in before;
    assert before + refs[..0] == before;
    for i := 0 to |refs|
      invariant merged == Dedup(before + refs[..i])
      invariant forall x :: x in seen <==> x in merged
    {
      StepDedup(before, refs, i);
      if refs[i] in seen {
        continue;
      }
      merged := merged + [refs[i]];
      seen := seen + {refs[i]};
    }
    assert refs[..|refs|] == refs;
  }

  lemma StepDedup(before: seq<string>, refs: seq<string>, i: nat)
    requires i < |refs|
    ensures var d := Dedup(before + refs[..i]);
            Dedup(before + refs[..i + 1]) == if refs[i] in d then d else d + [refs[i]]
  {
    hide Dedup;
    assert before + refs[..i + 1] == (before + refs[..i]) + [refs[i]];
    DedupAppend(before + refs[..i], refs[i]);
    DedupMeaning(before + refs[..i]);
  }

  lemma NormalizedIsDedup(refs: seq<string>)
    ensures Dedup(Normalized(refs)) == Normalized(refs)
  {
    hide Dedup;
    DedupMeaning(Trimmed(refs));
    DedupFixed(Normalized(refs));
  }

  lemma ConcatTwo(a: seq<string>, b: seq<string>)
    ensures Concat([a, b]) == a + b
  {
    assert [a, b][..1] == [a];
    assert [a][..0] == [];
    assert Concat([]) == [];
    assert Concat([a]) == Concat([a][..0]) + a;
  }

  class InstinctLedger {
    var rows: map<string, Row>

    constructor ()
      ensures rows == map[]
    {
      rows := map[];
    }

    /** `upsert_team_instinct`; a draft with a required field missing is refused and changes nothing. */
    method UpsertTeamInstinct(draft: Option<Draft>) returns (stored: Option<Row>)
      modifies this
      ensures stored.None? <==> draft.None?
      ensures draft.None? ==> rows == old(rows)
      ensures draft.Some? ==> rows == Upsert(old(rows), draft.value) && stored == Lookup(rows, draft.value.id)
    {
      if draft.None? {
        return None;
      }
      hide Normalized, Dedup;
      var d := draft.value;
      var refs := NormalizeRefs(d.refs);
      var confidence := Clamp(d.confidence);
      var status := d.status;
      var created := d.created;
      if d.id in rows {
        var row := rows[d.id];
        MergeMeans(row.refs, refs);
        ConcatTwo(row.refs, refs);
        refs := MergeRefs([row.refs, refs]);
        confidence := Max(Clamp(row.confidence), confidence);
        if row.status == "active" && status == "candidate" {
          status := "active";
        }
        created := row.created;
      }
      var row := Row(d.body, confidence, refs, status, created, d.validated);
      rows := rows[d.id := row];
      return Some(row);
    }
  }
}
