/** Splicing edits into a text: applying them in place from the right against substituting all
    of them at once in the original. */
module Splice {
  import opened Wrappers

  /** Replaces `start..end` of a file; an empty span inserts. `op` is the index of the operation
      that asked for it. */
  datatype Edit = Edit(file: nat, start: nat, end: nat, replace: string, op: nat)

  predicate Inserts(e: Edit) {
    e.start == e.end
  }

  /** Half-open spans that share a position, or an insertion strictly inside a span. */
  predicate Clash(a: Edit, b: Edit) {
    a.start < b.end && b.start < a.end
  }

  ghost predicate NoClash(es: seq<Edit>) {
    forall i, j :: 0 <= i < j < |es| ==> !Clash(es[i], es[j])
  }

  predicate Spans(es: seq<Edit>) {
    forall e <- es :: e.start <= e.end
  }

  predicate Within(text: string, es: seq<Edit>) {
    forall e <- es :: e.end <= |text|
  }

  /** Left to right, same-point edits in operation order. */
  predicate Before(a: Edit, b: Edit) {
    a.start < b.start || (a.start == b.start && a.op < b.op)
  }

  ghost predicate InOrder(es: seq<Edit>) {
    forall i, j :: 0 <= i < j < |es| ==> Before(es[i], es[j])
  }

  // ---------- in place, from the right ----------

  /** Replacing a range; outside the text nothing is replaced. */
  function ReplaceRange(text: string, e: Edit): string {
    if e.start <= e.end <= |text| then text[..e.start] + e.replace + text[e.end..] else text
  }

  /** The edits, listed left to right, applied one after the other from the last to the first. */
  function SpliceAll(text: string, es: seq<Edit>): string {
    if es == [] then text else ReplaceRange(SpliceAll(text, es[1..]), es[0])
  }

  // ---------- all at once ----------

  /** What is inserted at a position, in list order. */
  function InsertedAt(es: seq<Edit>, p: nat): string {
    if es == [] then "" else (if Inserts(es[0]) && es[0].start == p then es[0].replace else "") + InsertedAt(es[1..], p)
  }

  /** The edit that replaces text starting at a position. */
  function ReplacedAt(es: seq<Edit>, p: nat): (r: Option<Edit>)
    ensures r.Some? ==> r.value in es && r.value.start == p && p < r.value.end
    ensures r.None? ==> forall e <- es :: !(e.start == p < e.end)
  {
    if es == [] then None
    else if es[0].start == p < es[0].end then Some(es[0])
    else ReplacedAt(es[1..], p)
  }

  /** Reads the original once: at every position first the insertions there, then either the
      replacement that starts there or the original character. */
  function Substitute(text: string, es: seq<Edit>, p: nat): string
    requires p <= |text|
    decreases |text| - p
  {
    InsertedAt(es, p) +
    if p == |text| then ""
    else
      match ReplacedAt(es, p)
      case Some(e) => e.replace + (if e.end <= |text| then Substitute(text, es, e.end) else "")
      case None => [text[p]] + Substitute(text, es, p + 1)
  }

  // ---------- when the two agree ----------

  /** Every edit ends before the next one starts. */
  ghost predicate Chain(es: seq<Edit>) {
    forall i, j :: 0 <= i < j < |es| ==> es[i].end <= es[j].start
  }

  /** No insertion shares its start with a replacement of a smaller operation. */
  ghost predicate NoShadow(es: seq<Edit>) {
    forall i, j :: 0 <= i < |es| && 0 <= j < |es| && Inserts(es[i]) && !Inserts(es[j]) && es[i].start == es[j].start ==>
      !(es[j].op < es[i].op)
  }

  /** For ordered edits, not clashing and not shadowing is exactly being a chain. */
  lemma ChainExact(es: seq<Edit>)
    requires InOrder(es) && Spans(es)
    ensures NoClash(es) && NoShadow(es) <==> Chain(es)
  {
    if NoClash(es) && NoShadow(es) {
      forall i, j | 0 <= i < j < |es|
        ensures es[i].end <= es[j].start
      {
        assert es[i] in es && es[j] in es && Before(es[i], es[j]) && !Clash(es[i], es[j]);
      }
    }
    if Chain(es) {
      forall i, j | 0 <= i < j < |es|
        ensures !Clash(es[i], es[j])
      {
        assert es[i] in es && es[j] in es;
      }
      forall i, j | 0 <= i < |es| && 0 <= j < |es| && Inserts(es[i]) && !Inserts(es[j]) && es[i].start == es[j].start
        ensures !(es[j].op < es[i].op)
      {
        assert es[i] in es && es[j] in es;
        if i < j {
          assert Before(es[i], es[j]);
        } else {
          assert es[j].end <= es[i].start;
        }
      }
    }
  }

  /** Copy up to the first edit, emit its replacement, continue behind it. */
  function Weave(text: string, pos: nat, es: seq<Edit>): string
    requires pos <= |text|
    decreases |es|
  {
    if es == [] then text[pos..]
    else if pos <= es[0].start <= es[0].end <= |text| then
      text[pos..es[0].start] + es[0].replace + Weave(text, es[0].end, es[1..])
    else ""
  }

  ghost predicate Ready(text: string, pos: nat, es: seq<Edit>) {
    pos <= |text| && Spans(es) && Within(text, es) && Chain(es) && forall e <- es :: pos <= e.start
  }

  lemma ReadyRest(text: string, pos: nat, es: seq<Edit>)
    requires Ready(text, pos, es) && es != []
    ensures pos <= es[0].start <= es[0].end <= |text| && Ready(text, es[0].end, es[1..])
  {
    assert es[0] in es;
    forall e <- es[1..]
      ensures e in es && es[0].end <= e.start
    {
      var k :| 0 <= k < |es[1..]| && es[1..][k] == e;
      assert es[k + 1] == e;
    }
    forall i, j | 0 <= i < j < |es[1..]|
      ensures es[1..][i].end <= es[1..][j].start
    {
      assert es[i + 1].end <= es[j + 1].start;
    }
  }

  /** Splicing from the right leaves everything left of a chain alone. */
  lemma {:induction false} SpliceIsWeave(text: string, pos: nat, es: seq<Edit>)
    requires Ready(text, pos, es)
    ensures SpliceAll(text, es) == text[..pos] + Weave(text, pos, es)
    decreases |es|
  {
    if es == [] {
      assert text == text[..pos] + text[pos..];
    } else {
      ReadyRest(text, pos, es);
      hide Ready;
      SpliceIsWeave(text, es[0].end, es[1..]);
      ReplaceLeft(text, pos, es[0], Weave(text, es[0].end, es[1..]));
    }
  }

  lemma ReplaceLeft(text: string, pos: nat, e: Edit, tail: string)
    requires pos <= e.start <= e.end <= |text|
    ensures ReplaceRange(text[..e.end] + tail, e) == text[..pos] + (text[pos..e.start] + e.replace + tail)
  {
    var cur := text[..e.end] + tail;
    assert cur[..e.start] == text[..e.start] && cur[e.end..] == tail;
    assert text[..e.start] == text[..pos] + text[pos..e.start];
    assert text[..pos] + text[pos..e.start] + e.replace + tail == text[..pos] + (text[pos..e.start] + e.replace + tail);
  }

  /** An edit that starts elsewhere does not matter at a position. */
  lemma DropAt(es: seq<Edit>, p: nat)
    requires es != [] && es[0].start != p
    ensures InsertedAt(es, p) == InsertedAt(es[1..], p) && ReplacedAt(es, p) == ReplacedAt(es[1..], p)
  {
    assert "" + InsertedAt(es[1..], p) == InsertedAt(es[1..], p);
  }

  /** Edits that start left of the position play no part. */
  lemma {:induction false} SubstituteDrop(text: string, es: seq<Edit>, p: nat)
    requires es != [] && p <= |text| && es[0].start < p
    ensures Substitute(text, es, p) == Substitute(text, es[1..], p)
    decreases |text| - p
  {
    hide InsertedAt, ReplacedAt;
    DropAt(es, p);
    if p < |text| {
      var r := ReplacedAt(es, p);
      if r.Some? {
        if r.value.end <= |text| {
          SubstituteDrop(text, es, r.value.end);
        }
      } else {
        SubstituteDrop(text, es, p + 1);
      }
    }
  }

  lemma {:induction false} NothingAt(es: seq<Edit>, p: nat)
    requires forall e <- es :: e.start != p
    ensures InsertedAt(es, p) == "" && ReplacedAt(es, p).None?
  {
    if es != [] {
      NothingAt(es[1..], p);
    }
  }

  lemma {:induction false} SubstituteIsWeave(text: string, pos: nat, es: seq<Edit>)
    requires Ready(text, pos, es)
    ensures Substitute(text, es, pos) == Weave(text, pos, es)
    decreases |es| + |text| - pos
  {
    if es == [] {
      if pos < |text| {
        SubstituteIsWeave(text, pos + 1, es);
        assert text[pos..] == [text[pos]] + text[pos + 1..];
      }
    } else {
      ReadyRest(text, pos, es);
      if pos < es[0].start {
        SkipOne(text, pos, es);
      } else if Inserts(es[0]) {
        InsertOne(text, pos, es);
      } else {
        ReplaceOne(text, pos, es);
      }
    }
  }

  /** What follows the insertions at a position. */
  function AfterInserts(text: string, p: nat, es: seq<Edit>): string
    requires p < |text|
  {
    match ReplacedAt(es, p)
    case Some(e) => e.replace + (if e.end <= |text| then Substitute(text, es, e.end) else "")
    case None => [text[p]] + Substitute(text, es, p + 1)
  }

  /** One step of both forms. */
  lemma Unfold(text: string, pos: nat, es: seq<Edit>)
    requires pos <= |text|
    ensures pos < |text| ==> Substitute(text, es, pos) == InsertedAt(es, pos) + AfterInserts(text, pos, es)
    ensures es != [] && pos <= es[0].start <= es[0].end <= |text| ==>
      Weave(text, pos, es) == text[pos..es[0].start] + es[0].replace + Weave(text, es[0].end, es[1..])
  {
  }

  lemma {:induction false} SkipOne(text: string, pos: nat, es: seq<Edit>)
    requires Ready(text, pos, es) && es != [] && pos < es[0].start
    ensures Substitute(text, es, pos) == Weave(text, pos, es)
    decreases |es| + |text| - pos, 0
  {
    ReadyRest(text, pos, es);
    ReadyLater(text, pos, es);
    hide Ready, InsertedAt, ReplacedAt, Substitute, Weave;
    SubstituteIsWeave(text, pos + 1, es);
    Unfold(text, pos, es);
    Unfold(text, pos + 1, es);
    CopyOne(text, pos, es[0], Weave(text, es[0].end, es[1..]));
  }

  lemma CopyOne(text: string, pos: nat, e: Edit, rest: string)
    requires pos < e.start <= |text|
    ensures "" + ([text[pos]] + (text[pos + 1..e.start] + e.replace + rest)) == text[pos..e.start] + e.replace + rest
  {
    assert text[pos..e.start] == [text[pos]] + text[pos + 1..e.start];
  }

  lemma ReadyLater(text: string, pos: nat, es: seq<Edit>)
    requires Ready(text, pos, es) && es != [] && pos < es[0].start
    ensures pos < |text| && Ready(text, pos + 1, es) && InsertedAt(es, pos) == "" && ReplacedAt(es, pos).None?
  {
    assert es[0] in es;
    forall e <- es
      ensures pos < e.start
    {
      var k :| 0 <= k < |es| && es[k] == e;
      assert k > 0 ==> es[0].end <= es[k].start;
    }
    NothingAt(es, pos);
  }

  lemma {:induction false} InsertOne(text: string, pos: nat, es: seq<Edit>)
    requires Ready(text, pos, es) && es != [] && pos == es[0].start && Inserts(es[0])
    ensures Substitute(text, es, pos) == Weave(text, pos, es)
    decreases |es| + |text| - pos, 0
  {
    ReadyRest(text, pos, es);
    hide Ready, Substitute, Weave;
    SubstituteIsWeave(text, pos, es[1..]);
    FirstInsertion(text, pos, es);
    Unfold(text, pos, es);
    assert text[pos..es[0].start] == "";
    assert "" + es[0].replace == es[0].replace;
  }

  /** An insertion at the position comes out first. */
  lemma FirstInsertion(text: string, pos: nat, es: seq<Edit>)
    requires es != [] && pos == es[0].start <= |text| && Inserts(es[0])
    ensures Substitute(text, es, pos) == es[0].replace + Substitute(text, es[1..], pos)
  {
    var more := InsertedAt(es[1..], pos);
    assert InsertedAt(es, pos) == es[0].replace + more;
    assert ReplacedAt(es, pos) == ReplacedAt(es[1..], pos);
    hide InsertedAt, ReplacedAt;
    TailDrop(text, pos, es);
    if pos < |text| {
      var tail := AfterInserts(text, pos, es[1..]);
      assert es[0].replace + more + tail == es[0].replace + (more + tail);
    } else {
      assert es[0].replace + more + "" == es[0].replace + (more + "");
    }
  }

  lemma TailDrop(text: string, pos: nat, es: seq<Edit>)
    requires es != [] && pos == es[0].start && ReplacedAt(es, pos) == ReplacedAt(es[1..], pos)
    ensures pos < |text| ==> AfterInserts(text, pos, es) == AfterInserts(text, pos, es[1..])
  {
    hide InsertedAt, Substitute;
    if pos < |text| {
      var r := ReplacedAt(es, pos);
      if r.Some? {
        if r.value.end <= |text| {
          SubstituteDrop(text, es, r.value.end);
        }
      } else {
        SubstituteDrop(text, es, pos + 1);
      }
    }
  }

  lemma {:induction false} ReplaceOne(text: string, pos: nat, es: seq<Edit>)
    requires Ready(text, pos, es) && es != [] && pos == es[0].start && !Inserts(es[0])
    ensures Substitute(text, es, pos) == Weave(text, pos, es)
    decreases |es| + |text| - pos, 0
  {
    ReadyRest(text, pos, es);
    NothingAt(es[1..], pos) by {
      assert forall e <- es[1..] :: es[0].end <= e.start;
    }
    assert InsertedAt(es, pos) == "" + "" && ReplacedAt(es, pos) == Some(es[0]);
    hide Ready, InsertedAt, ReplacedAt, Substitute, Weave;
    SubstituteDrop(text, es, es[0].end);
    SubstituteIsWeave(text, es[0].end, es[1..]);
    Unfold(text, pos, es);
    assert text[pos..es[0].start] == "";
    assert "" + es[0].replace == es[0].replace;
    assert "" + (es[0].replace + Substitute(text, es, es[0].end)) == es[0].replace + Substitute(text, es, es[0].end);
  }

  /** Without clashes and shadowed insertions, splicing in place from the right is substituting
      everything at once in the original text. */
  lemma SpliceSubstitutes(text: string, es: seq<Edit>)
    requires InOrder(es) && Spans(es) && Within(text, es) && NoClash(es) && NoShadow(es)
    ensures SpliceAll(text, es) == Substitute(text, es, 0)
  {
    ChainExact(es);
    SpliceIsWeave(text, 0, es);
    SubstituteIsWeave(text, 0, es);
    assert text[..0] + Weave(text, 0, es) == Weave(text, 0, es);
  }

  // ---------- and when they do not ----------

  /** The same spans and operations with other replacement texts. */
  ghost predicate SameShape(es: seq<Edit>, fs: seq<Edit>) {
    |es| == |fs| && forall i :: 0 <= i < |es| ==> fs[i] == es[i].(replace := fs[i].replace)
  }

  /** Erases every replacement text except one insertion, which becomes `b`. */
  function Probe(es: seq<Edit>, k: nat): (r: seq<Edit>)
    ensures SameShape(es, r) && forall i :: 0 <= i < |r| ==> r[i].replace == if i == k then "b" else ""
  {
    seq(|es|, i requires 0 <= i < |es| => es[i].(replace := if i == k then "b" else ""))
  }

  predicate Plain(s: string) {
    forall i :: 0 <= i < |s| ==> s[i] == 'a'
  }

  function Filler(n: nat): (s: string)
    ensures |s| == n && Plain(s)
  {
    seq(n, _ => 'a')
  }

  lemma PlainReplace(text: string, e: Edit)
    requires Plain(text) && e.replace == ""
    ensures Plain(ReplaceRange(text, e))
  {
  }

  lemma {:induction false} PlainRest(text: string, es: seq<Edit>, from: nat)
    requires Plain(text) && from <= |es| && (forall i :: from <= i < |es| ==> es[i].replace == "")
    ensures Plain(SpliceAll(text, es[from..]))
    decreases |es| - from
  {
    if from < |es| {
      PlainRest(text, es, from + 1);
      assert es[from..][1..] == es[from + 1..] && es[from..][0] == es[from];
      PlainReplace(SpliceAll(text, es[from + 1..]), es[from]);
    }
  }

  /** Edits right of `e` never shorten the text below `e`. */
  lemma {:induction false} LongRest(text: string, es: seq<Edit>, from: nat, e: nat)
    requires e <= |text| && from <= |es| && (forall i :: from <= i < |es| ==> Inserts(es[i]) || e <= es[i].start)
    ensures e <= |SpliceAll(text, es[from..])|
    decreases |es| - from
  {
    if from < |es| {
      LongRest(text, es, from + 1, e);
      assert es[from..][1..] == es[from + 1..] && es[from..][0] == es[from];
    }
  }

  /** What is spliced left of the insertion of `b` at `s`, up to the replacement `i`. */
  lemma {:induction false} UpTo(text: string, es: seq<Edit>, i: nat, j: nat)
    requires i < j < |es| && es[j].replace == "b" && (forall k :: 0 <= k < |es| && k != j ==> es[k].replace == "")
    requires Inserts(es[j]) && es[i].start == es[j].start && es[i].start < es[i].end <= |text| && Plain(text)
    requires forall k :: i < k < j ==> Inserts(es[k]) && es[k].start == es[i].start
    requires forall k :: j < k < |es| ==> Inserts(es[k]) || es[i].end <= es[k].start
    ensures Plain(SpliceAll(text, es[i..]))
  {
    var s := es[i].start;
    PlainRest(text, es, j + 1);
    LongRest(text, es, j + 1, es[i].end);
    var right := SpliceAll(text, es[j + 1..]);
    assert es[j..][1..] == es[j + 1..] && es[j..][0] == es[j];
    var cur := right[..s] + "b" + right[s..];
    assert SpliceAll(text, es[j..]) == cur;
    Unchanged(text, es, i + 1, j);
    assert SpliceAll(text, es[i + 1..]) == cur;
    assert es[i..][1..] == es[i + 1..] && es[i..][0] == es[i];
    assert SpliceAll(text, es[i..]) == cur[..s] + "" + cur[es[i].end..];
    ErasedAgain(right, s, es[i].end);
  }

  /** An erasure just right of an inserted `b` takes it away. */
  lemma ErasedAgain(right: string, s: nat, e: nat)
    requires Plain(right) && s < e <= |right|
    ensures var cur := right[..s] + "b" + right[s..]; Plain(cur[..s] + "" + cur[e..])
  {
    var cur := right[..s] + "b" + right[s..];
    var done := cur[..s] + "" + cur[e..];
    forall k | 0 <= k < |done|
      ensures done[k] == 'a'
    {
      assert done[k] == if k < s then right[k] else right[k - s + e - 1];
    }
  }

  lemma {:induction false} Unchanged(text: string, es: seq<Edit>, from: nat, j: nat)
    requires from <= j <= |es| && forall k :: from <= k < j ==> Inserts(es[k]) && es[k].replace == ""
    ensures SpliceAll(text, es[from..]) == SpliceAll(text, es[j..])
    decreases j - from
  {
    if from < j {
      Unchanged(text, es, from + 1, j);
      assert es[from..][1..] == es[from + 1..] && es[from..][0] == es[from];
      var cur := SpliceAll(text, es[from + 1..]);
      if es[from].end <= |cur| {
        assert cur == cur[..es[from].start] + "" + cur[es[from].end..];
      }
    }
  }

  lemma {:induction false} PlainToStart(text: string, es: seq<Edit>, i: nat)
    requires i <= |es| && Plain(SpliceAll(text, es[i..])) && forall k :: 0 <= k < i ==> es[k].replace == ""
    ensures Plain(SpliceAll(text, es))
    decreases i
  {
    if i == 0 {
      assert es[0..] == es;
    } else {
      assert es[i - 1..][1..] == es[i..] && es[i - 1..][0] == es[i - 1];
      PlainReplace(SpliceAll(text, es[i..]), es[i - 1]);
      PlainToStart(text, es, i - 1);
    }
  }

  lemma {:induction false} InsertedContains(es: seq<Edit>, j: nat)
    requires j < |es| && Inserts(es[j]) && es[j].replace == "b"
    ensures 'b' in InsertedAt(es, es[j].start)
  {
    if j > 0 {
      InsertedContains(es[1..], j - 1);
    } else {
      assert ("b" + InsertedAt(es[1..], es[0].start))[0] == 'b';
    }
  }

  /** Substituting at once always emits an insertion no span swallows. */
  lemma {:induction false} SubstituteReaches(text: string, es: seq<Edit>, p: nat, j: nat)
    requires j < |es| && p <= es[j].start <= |text| && Inserts(es[j]) && es[j].replace == "b"
    requires forall k :: 0 <= k < |es| ==> !Clash(es[k], es[j])
    ensures 'b' in Substitute(text, es, p)
    decreases |text| - p
  {
    hide InsertedAt, ReplacedAt, Substitute;
    if p == es[j].start {
      InsertedContains(es, j);
      SubstituteHas(text, es, p);
    } else {
      var r := ReplacedAt(es, p);
      if r.Some? {
        var k :| 0 <= k < |es| && es[k] == r.value;
        assert !Clash(es[k], es[j]);
        SubstituteReaches(text, es, r.value.end, j);
      } else {
        SubstituteReaches(text, es, p + 1, j);
      }
      SubstituteHas(text, es, p);
    }
  }

  /** What one step emits is in the whole. */
  lemma SubstituteHas(text: string, es: seq<Edit>, p: nat)
    requires p <= |text|
    ensures 'b' in InsertedAt(es, p) ==> 'b' in Substitute(text, es, p)
    ensures p < |text| && ReplacedAt(es, p).Some? && ReplacedAt(es, p).value.end <= |text| ==>
      ('b' in Substitute(text, es, ReplacedAt(es, p).value.end) ==> 'b' in Substitute(text, es, p))
    ensures p < |text| && ReplacedAt(es, p).None? && 'b' in Substitute(text, es, p + 1) ==>
      'b' in Substitute(text, es, p)
  {
  }

  lemma SmallerFirst(es: seq<Edit>, i: nat, j: nat)
    requires InOrder(es) && i < |es| && j < |es| && es[i].start == es[j].start && es[i].op < es[j].op
    ensures i < j
  {
  }

  /** A shadowed insertion is lost for some texts. */
  lemma ShadowFails(es: seq<Edit>, i: nat, j: nat, text: string)
    requires InOrder(es) && Spans(es) && NoClash(es) && i < |es| && j < |es| && Plain(text) && Within(text, es)
    requires Inserts(es[j]) && !Inserts(es[i]) && es[i].start == es[j].start && es[i].op < es[j].op
    ensures SpliceAll(text, Probe(es, j)) != Substitute(text, Probe(es, j), 0)
  {
    var fs := Probe(es, j);
    assert es[i] in es && es[j] in es;
    SmallerFirst(es, i, j);
    forall k | 0 <= k < |es|
      ensures !Clash(fs[k], fs[j])
      ensures i < k < j ==> Inserts(fs[k]) && fs[k].start == fs[i].start
      ensures j < k ==> Inserts(fs[k]) || fs[i].end <= fs[k].start
    {
      assert es[k] in es;
      if k < j {
        assert !Clash(es[k], es[j]);
      } else if j < k {
        assert !Clash(es[j], es[k]) && Before(es[j], es[k]);
      }
      if i < k {
        assert !Clash(es[i], es[k]) && Before(es[i], es[k]);
      }
      if k < j {
        assert Before(es[k], es[j]);
      }
    }
    UpTo(text, fs, i, j);
    PlainToStart(text, fs, i);
    SubstituteReaches(text, fs, 0, j);
  }

  /** Main result: for ordered edits that pass the overlap check, splicing in place equals
      substituting at once for all texts exactly when no insertion shares its start with a
      replacement of a smaller operation. */
  lemma SpliceExact(es: seq<Edit>, n: nat)
    requires InOrder(es) && Spans(es) && NoClash(es) && forall e <- es :: e.end <= n
    ensures NoShadow(es) <==>
      forall text, fs :: |text| == n && SameShape(es, fs) ==> SpliceAll(text, fs) == Substitute(text, fs, 0)
  {
    if NoShadow(es) {
      forall text, fs | |text| == n && SameShape(es, fs)
        ensures SpliceAll(text, fs) == Substitute(text, fs, 0)
      {
        ShapeKeeps(es, fs, text);
        SpliceSubstitutes(text, fs);
      }
    } else {
      var j, i :| 0 <= j < |es| && 0 <= i < |es| && Inserts(es[j]) && !Inserts(es[i]) && es[j].start == es[i].start &&
        es[i].op < es[j].op;
      var text := Filler(n);
      ShadowFails(es, i, j, text);
      assert SameShape(es, Probe(es, j));
    }
  }

  lemma ShapeKeeps(es: seq<Edit>, fs: seq<Edit>, text: string)
    requires InOrder(es) && Spans(es) && NoClash(es) && NoShadow(es) && SameShape(es, fs)
    requires forall e <- es :: e.end <= |text|
    ensures InOrder(fs) && Spans(fs) && NoClash(fs) && NoShadow(fs) && Within(text, fs)
  {
    forall i | 0 <= i < |fs|
      ensures fs[i].start == es[i].start && fs[i].end == es[i].end && fs[i].op == es[i].op && es[i] in es
    {
    }
    forall i, j | 0 <= i < j < |fs|
      ensures Before(fs[i], fs[j]) && !Clash(fs[i], fs[j])
    {
      assert Before(es[i], es[j]) && !Clash(es[i], es[j]);
    }
  }
}
