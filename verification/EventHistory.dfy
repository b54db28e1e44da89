/** What a stored message looks like after any sequence of operations, read off the sequence itself. */
module EventHistory {
  import opened Wrappers
  import opened ObjectIds
  import opened Entities
  import opened Store
  import opened StoreFacts
  import opened Coherence

  /** The run contains no save of a message that already has an id. */
  predicate NoResave(ops: seq<Op>) {
    forall k :: 0 <= k < |ops| ==> ops[k].Save? ==> ops[k].m.id == NIL_ID
  }

  /** The changes that a run addresses to one message, in order. */
  function TouchesOf(ops: seq<Op>, id: ObjectId): seq<Touch> {
    if ops == [] then []
    else (if ops[0].Change? && FromHex(ops[0].idText) == Some(id) then [ops[0].touch] else []) + TouchesOf(ops[1..], id)
  }

  function ApplyAll(d: Doc, touches: seq<Touch>): Doc
    decreases |touches|
  {
    if touches == [] then d else ApplyAll(ApplyTouch(d, touches[0]), touches[1..])
  }

  lemma ChangeKeepsDocs(s: StoreState, idText: string, t: Touch, i: nat)
    requires WellFormed(s) && i < |s.docs|
    ensures var docs := TouchMessage(s, idText, t).0.docs;
      && i < |docs|
      && docs[i] == (if FromHex(idText) == Some(s.docs[i].id) then ApplyTouch(s.docs[i], t) else s.docs[i])
  {
    TouchAlwaysInvalidates(s, idText, t);
    if FromHex(idText) == Some(s.docs[i].id) {
      FindUnique(s.docs, i);
    }
  }

  lemma OtherOpKeepsDocs(s: StoreState, op: Op, i: nat)
    requires !op.Change? && NoResave([op]) && i < |s.docs|
    ensures i < |Apply(s, op).docs| && Apply(s, op).docs[i] == s.docs[i]
  {
    assert [op][0] == op;
  }

  /** The effect of one operation on one document. */
  function Touched(d: Doc, op: Op): Doc {
    if op.Change? && FromHex(op.idText) == Some(d.id) then ApplyTouch(d, op.touch) else d
  }

  lemma ApplyKeepsDocs(s: StoreState, op: Op, i: nat)
    requires WellFormed(s) && i < |s.docs| && NoResave([op])
    ensures i < |Apply(s, op).docs| && Apply(s, op).docs[i] == Touched(s.docs[i], op)
  {
    if op.Change? {
      ChangeKeepsDocs(s, op.idText, op.touch, i);
    } else {
      OtherOpKeepsDocs(s, op, i);
    }
  }

  lemma TouchedIsOneTouch(d: Doc, op: Op)
    ensures Touched(d, op) == ApplyAll(d, TouchesOf([op], d.id)) && Touched(d, op).id == d.id
  {
    assert [op][0] == op && [op][1..] == [];
    if op.Change? {
      assert [op.touch][1..] == [];
    }
  }

  lemma TouchesOfCons(op: Op, ops: seq<Op>, id: ObjectId)
    ensures TouchesOf([op] + ops, id) == TouchesOf([op], id) + TouchesOf(ops, id)
  {
  }

  lemma {:induction false} ApplyAllConcat(d: Doc, a: seq<Touch>, b: seq<Touch>)
    ensures ApplyAll(d, a + b) == ApplyAll(ApplyAll(d, a), b)
    decreases |a|
  {
    if a == [] {
      assert a + b == b;
    } else {
      assert (a + b)[1..] == a[1..] + b;
      ApplyAllConcat(ApplyTouch(d, a[0]), a[1..], b);
    }
  }

  lemma ChangesCompose(d: Doc, d': Doc, ops: seq<Op>)
    requires ops != [] && d' == ApplyAll(d, TouchesOf([ops[0]], d.id))
    ensures ApplyAll(d', TouchesOf(ops[1..], d.id)) == ApplyAll(d, TouchesOf(ops, d.id))
  {
    assert [ops[0]] + ops[1..] == ops;
    TouchesOfCons(ops[0], ops[1..], d.id);
    ApplyAllConcat(d, TouchesOf([ops[0]], d.id), TouchesOf(ops[1..], d.id));
  }

  /** A stored document is never lost or moved, and after any run it is its old self with exactly the changes
      addressed to it applied in order. */
  lemma {:induction false} RunAppliesTouches(s: StoreState, ops: seq<Op>, i: nat)
    requires Coherent(s) && LegalRun(s, ops) && NoResave(ops) && i < |s.docs|
    ensures i < |Run(s, ops).docs|
    ensures Run(s, ops).docs[i] == ApplyAll(s.docs[i], TouchesOf(ops, s.docs[i].id))
    decreases |ops|
  {
    if ops == [] {
    } else {
      var s' := Apply(s, ops[0]);
      ApplyKeepsDocs(s, ops[0], i);
      TouchedIsOneTouch(s.docs[i], ops[0]);
      ApplyKeepsCoherence(s, ops[0]);
      RunAppliesTouches(s', ops[1..], i);
      ChangesCompose(s.docs[i], s'.docs[i], ops);
    }
  }

  // ---- Reading the final state off the sequence of changes ----

  /** The change at `k` sets the content and no later one does. */
  ghost predicate LastEdit(touches: seq<Touch>, k: int) {
    0 <= k < |touches| && touches[k].SetContent? && forall j :: k < j < |touches| ==> !touches[j].SetContent?
  }

  /** The user's last hide or show in the sequence is a hide; with neither, `before` decides. */
  ghost predicate EndsHidden(touches: seq<Touch>, user: string, before: bool) {
    || (before && forall j :: 0 <= j < |touches| ==> touches[j] != PullHidden(user))
    || exists k :: 0 <= k < |touches| && touches[k] == AddHidden(user) &&
                   forall j :: k < j < |touches| ==> touches[j] != PullHidden(user)
  }

  ghost predicate NoDuplicates(users: seq<string>) {
    forall i, j :: 0 <= i < j < |users| ==> users[i] != users[j]
  }

  lemma {:induction false} WithoutKeepsDistinct(users: seq<string>, user: string)
    requires NoDuplicates(users)
    ensures NoDuplicates(Without(users, user))
  {
    if users == [] {
    } else {
      WithoutKeepsDistinct(users[1..], user);
      assert users[0] !in Without(users[1..], user);
    }
  }

  lemma ApplyAllSnoc(d: Doc, touches: seq<Touch>)
    requires touches != []
    ensures var n := |touches| - 1;
            ApplyAll(d, touches) == ApplyTouch(ApplyAll(d, touches[..n]), touches[n])
  {
    var n := |touches| - 1;
    assert touches == touches[..n] + [touches[n]] && [touches[n]][1..] == [];
    ApplyAllConcat(d, touches[..n], [touches[n]]);
  }

  lemma LastEditSnoc(front: seq<Touch>, t: Touch, k: int)
    requires LastEdit(front + [t], k)
    ensures if t.SetContent? then k == |front| else LastEdit(front, k) && (front + [t])[k] == front[k]
  {
    assert (front + [t])[|front|] == t;
    assert forall j :: 0 <= j < |front| ==> (front + [t])[j] == front[j];
  }

  /** The content is that of the last edit, or the original text when there was none. */
  lemma {:induction false} ContentIsLastEdit(d: Doc, touches: seq<Touch>)
    ensures forall k :: LastEdit(touches, k) ==> ApplyAll(d, touches).content == touches[k].content
    ensures (forall k :: 0 <= k < |touches| ==> !touches[k].SetContent?) ==> ApplyAll(d, touches).content == d.content
    decreases |touches|
  {
    if touches == [] {
    } else {
      var n := |touches| - 1;
      ApplyAllSnoc(d, touches);
      ContentIsLastEdit(d, touches[..n]);
      assert touches == touches[..n] + [touches[n]];
      forall k | LastEdit(touches, k) ensures ApplyAll(d, touches).content == touches[k].content {
        LastEditSnoc(touches[..n], touches[n], k);
      }
    }
  }

  lemma {:induction false} DeletedIffSomeDelete(d: Doc, touches: seq<Touch>)
    ensures ApplyAll(d, touches).deleted <==> d.deleted || MarkDeleted in touches
    decreases |touches|
  {
    if touches == [] {
    } else {
      var n := |touches| - 1;
      ApplyAllSnoc(d, touches);
      DeletedIffSomeDelete(d, touches[..n]);
      assert touches == touches[..n] + [touches[n]];
    }
  }

  lemma {:induction false} HiddenIffLastIsHide(d: Doc, touches: seq<Touch>, user: string)
    ensures user in ApplyAll(d, touches).hiddenFor <==> EndsHidden(touches, user, user in d.hiddenFor)
    decreases |touches|
  {
    if touches == [] {
    } else {
      var n := |touches| - 1;
      var front := touches[..n];
      ApplyAllSnoc(d, touches);
      HiddenIffLastIsHide(d, front, user);
      assert forall j :: 0 <= j < n ==> front[j] == touches[j];
      EndsHiddenSnoc(touches, user, user in d.hiddenFor);
    }
  }

  lemma EndsHiddenSnoc(touches: seq<Touch>, user: string, before: bool)
    requires touches != []
    ensures var n := |touches| - 1;
            EndsHidden(touches, user, before) <==>
            touches[n] == AddHidden(user) || (touches[n] != PullHidden(user) && EndsHidden(touches[..n], user, before))
  {
  }

  lemma {:induction false} HiddenListHasNoDuplicates(d: Doc, touches: seq<Touch>)
    requires NoDuplicates(d.hiddenFor)
    ensures NoDuplicates(ApplyAll(d, touches).hiddenFor)
    decreases |touches|
  {
    if touches == [] {
    } else {
      if touches[0].PullHidden? {
        WithoutKeepsDistinct(d.hiddenFor, touches[0].user);
      }
      HiddenListHasNoDuplicates(ApplyTouch(d, touches[0]), touches[1..]);
    }
  }

  lemma {:induction false} OtherFieldsNeverChange(d: Doc, touches: seq<Touch>)
    ensures var d' := ApplyAll(d, touches);
            d' == d.(content := d'.content, hiddenFor := d'.hiddenFor, deleted := d'.deleted)
    decreases |touches|
  {
    if touches == [] {
    } else {
      OtherFieldsNeverChange(ApplyTouch(d, touches[0]), touches[1..]);
    }
  }

  /** The characterisation, for a stored message and any run of operations without a re-save. */
  lemma MessageAfterRun(s: StoreState, ops: seq<Op>, i: nat)
    requires Coherent(s) && LegalRun(s, ops) && NoResave(ops) && i < |s.docs|
    ensures i < |Run(s, ops).docs|
    ensures var d, d', touches := s.docs[i], Run(s, ops).docs[i], TouchesOf(ops, s.docs[i].id);
      && (forall k :: LastEdit(touches, k) ==> d'.content == touches[k].content)
      && ((forall k :: 0 <= k < |touches| ==> !touches[k].SetContent?) ==> d'.content == d.content)
      && (d'.deleted <==> d.deleted || MarkDeleted in touches)
      && (forall user :: user in d'.hiddenFor <==> EndsHidden(touches, user, user in d.hiddenFor))
      && (NoDuplicates(d.hiddenFor) ==> NoDuplicates(d'.hiddenFor))
      && d' == d.(content := d'.content, hiddenFor := d'.hiddenFor, deleted := d'.deleted)
  {
    var d, touches := s.docs[i], TouchesOf(ops, s.docs[i].id);
    RunAppliesTouches(s, ops, i);
    ContentIsLastEdit(d, touches);
    DeletedIffSomeDelete(d, touches);
    forall user ensures user in ApplyAll(d, touches).hiddenFor <==> EndsHidden(touches, user, user in d.hiddenFor) {
      HiddenIffLastIsHide(d, touches, user);
    }
    if NoDuplicates(d.hiddenFor) {
      HiddenListHasNoDuplicates(d, touches);
    }
    OtherFieldsNeverChange(d, touches);
  }

  // ---- Commutation ----

  /** Equal documents, except that the hidden list may be ordered differently. */
  ghost predicate SameUpToOrder(a: Doc, b: Doc) {
    a.(hiddenFor := b.hiddenFor) == b && multiset(a.hiddenFor) == multiset(b.hiddenFor)
  }

  predicate Independent(a: Touch, b: Touch) {
    match (a, b)
    case (SetContent(x), SetContent(y)) => x == y
    case (AddHidden(u), PullHidden(v)) => u != v
    case (PullHidden(u), AddHidden(v)) => u != v
    case _ => true
  }

  lemma {:induction false} WithoutCounts(users: seq<string>, user: string)
    ensures multiset(Without(users, user)) == multiset(users)[user := 0]
  {
    if users == [] {
    } else {
      WithoutCounts(users[1..], user);
      assert users == [users[0]] + users[1..];
      assert multiset(Without(users, user)) ==
             (if users[0] == user then multiset{} else multiset{users[0]}) + multiset(Without(users[1..], user));
    }
  }

  /** A show takes every occurrence of the user out of the hidden list and keeps the others in their order. */
  lemma {:induction false} WithoutConcat(a: seq<string>, b: seq<string>, user: string)
    ensures Without(a + b, user) == Without(a, user) + Without(b, user)
    decreases |a|
  {
    if a == [] {
      assert a + b == b;
    } else {
      assert (a + b)[1..] == a[1..] + b;
      WithoutConcat(a[1..], b, user);
    }
  }

  lemma WithoutOne(one: string, user: string)
    ensures Without([one], user) == if one == user then [] else [one]
  {
    assert [one][1..] == [];
  }

  /** A hide puts a user who is not hidden yet last and changes nothing else; a user who is hidden stays where they
      are. */
  lemma HideAppends(d: Doc, user: string)
    ensures var d' := ApplyTouch(d, AddHidden(user));
      && |d'.hiddenFor| == |d.hiddenFor| + (if user in d.hiddenFor then 0 else 1)
      && d'.hiddenFor[..|d.hiddenFor|] == d.hiddenFor
      && (user !in d.hiddenFor ==> d'.hiddenFor[|d.hiddenFor|] == user)
  {
  }

  lemma PullPullCommute(d: Doc, u: string, v: string)
    ensures multiset(Without(Without(d.hiddenFor, u), v)) == multiset(Without(Without(d.hiddenFor, v), u))
  {
    WithoutCounts(d.hiddenFor, u);
    WithoutCounts(d.hiddenFor, v);
    WithoutCounts(Without(d.hiddenFor, u), v);
    WithoutCounts(Without(d.hiddenFor, v), u);
  }

  lemma AddAddCommute(d: Doc, u: string, v: string)
    ensures multiset(ApplyTouch(ApplyTouch(d, AddHidden(u)), AddHidden(v)).hiddenFor) ==
            multiset(ApplyTouch(ApplyTouch(d, AddHidden(v)), AddHidden(u)).hiddenFor)
  {
  }

  lemma IndependentCommute(d: Doc, a: Touch, b: Touch)
    requires Independent(a, b)
    ensures SameUpToOrder(ApplyTouch(ApplyTouch(d, a), b), ApplyTouch(ApplyTouch(d, b), a))
  {
    if a.PullHidden? && b.PullHidden? {
      PullPullCommute(d, a.user, b.user);
    } else if a.AddHidden? && b.AddHidden? {
      AddAddCommute(d, a.user, b.user);
    } else if a.AddHidden? && b.PullHidden? {
      AddPullCommute(d, a.user, b.user);
    } else if a.PullHidden? && b.AddHidden? {
      AddPullCommute(d, b.user, a.user);
    }
  }

  lemma AddPullCommute(d: Doc, u: string, v: string)
    requires u != v
    ensures multiset(ApplyTouch(ApplyTouch(d, AddHidden(u)), PullHidden(v)).hiddenFor) ==
            multiset(ApplyTouch(ApplyTouch(d, PullHidden(v)), AddHidden(u)).hiddenFor)
  {
    WithoutCounts(d.hiddenFor, v);
    WithoutCounts(d.hiddenFor + [u], v);
  }

  const BLANK := Doc(NIL_ID, NIL_ID, NIL_ID, "", "", 0, 0, "", [], false)

  /** Two changes commute on every document, up to the order of the hidden list, exactly when they are not
      two different edits and not a hide and a show of the same user. */
  lemma CommuteExactlyWhenIndependent(a: Touch, b: Touch)
    ensures (forall d :: SameUpToOrder(ApplyTouch(ApplyTouch(d, a), b), ApplyTouch(ApplyTouch(d, b), a)))
            <==> Independent(a, b)
  {
    if Independent(a, b) {
      forall d ensures SameUpToOrder(ApplyTouch(ApplyTouch(d, a), b), ApplyTouch(ApplyTouch(d, b), a)) {
        IndependentCommute(d, a, b);
      }
    } else {
      var x, y := ApplyTouch(ApplyTouch(BLANK, a), b), ApplyTouch(ApplyTouch(BLANK, b), a);
      if a.AddHidden? {
        assert a.user in y.hiddenFor && a.user !in x.hiddenFor;
      } else if a.PullHidden? {
        assert a.user in x.hiddenFor && a.user !in y.hiddenFor;
      }
      assert !SameUpToOrder(x, y) by {
        if a.AddHidden? {
          assert a.user in multiset(y.hiddenFor) && a.user !in multiset(x.hiddenFor);
        } else if a.PullHidden? {
          assert a.user in multiset(x.hiddenFor) && a.user !in multiset(y.hiddenFor);
        }
      }
    }
  }
}
