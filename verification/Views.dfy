/** What replaying notifications does to a list of messages, and what becomes of a list that was loaded at one moment
    and shown at a later one. */
module Views {
  import opened ObjectIds
  import opened Entities
  import opened Events
  import opened Replay

  predicate PostsTo(n: ChatEvent, chat: ObjectId) {
    n.kind.NewMessage? && n.chatId == Hex(chat) && MessageOfNote(n).Some?
  }

  predicate ReplacesIn(n: ChatEvent, chat: ObjectId) {
    !n.kind.NewMessage? && n.chatId == Hex(chat) && MessageOfNote(n).Some?
  }

  function PostCount(notes: seq<ChatEvent>, chat: ObjectId): nat
    decreases |notes|
  {
    if notes == [] then 0 else (if PostsTo(notes[0], chat) then 1 else 0) + PostCount(notes[1..], chat)
  }

  // ---- What replaying does, message by message ----

  /** The last replacement of `m` in the notes, or `m` itself. */
  function Final(notes: seq<ChatEvent>, chat: ObjectId, m: Message): (r: Message)
    ensures r.id == m.id
    decreases |notes|
  {
    if notes == [] then m
    else
      var n := notes[0];
      var m' := if ReplacesIn(n, chat) && MessageOfNote(n).value.id == m.id then MessageOfNote(n).value else m;
      Final(notes[1..], chat, m')
  }

  function FinalAll(notes: seq<ChatEvent>, chat: ObjectId, view: seq<Message>): (r: seq<Message>)
    ensures |r| == |view|
    ensures forall i :: 0 <= i < |view| ==> r[i] == Final(notes, chat, view[i])
  {
    seq(|view|, i requires 0 <= i < |view| => Final(notes, chat, view[i]))
  }

  lemma FinalAllConcat(notes: seq<ChatEvent>, chat: ObjectId, a: seq<Message>, b: seq<Message>)
    ensures FinalAll(notes, chat, a + b) == FinalAll(notes, chat, a) + FinalAll(notes, chat, b)
  {
  }

  lemma PostSplits(view: seq<Message>, chat: ObjectId, n: ChatEvent, rest: seq<ChatEvent>, tail: seq<Message>)
    requires PostsTo(n, chat)
    requires var m := MessageOfNote(n).value;
      && Replayed(view + [m], chat, rest) == FinalAll(rest, chat, view + [m]) + tail
      && Replayed([m], chat, rest) == FinalAll(rest, chat, [m]) + tail
    ensures Replayed(view, chat, [n] + rest) == FinalAll([n] + rest, chat, view) + Replayed([], chat, [n] + rest)
    ensures Replayed([], chat, [n] + rest) == FinalAll(rest, chat, [MessageOfNote(n).value]) + tail
  {
    var m := MessageOfNote(n).value;
    assert ([n] + rest)[1..] == rest && [] + [m] == [m];
    FinalAllConcat(rest, chat, view, [m]);
    FinalAllOfPost(view, chat, n, rest);
    Associate(FinalAll(rest, chat, view), FinalAll(rest, chat, [m]), tail);
  }

  lemma FinalAllOfPost(view: seq<Message>, chat: ObjectId, n: ChatEvent, rest: seq<ChatEvent>)
    requires n.kind.NewMessage?
    ensures FinalAll([n] + rest, chat, view) == FinalAll(rest, chat, view)
  {
    assert ([n] + rest)[1..] == rest;
  }

  lemma Associate<T>(a: seq<T>, b: seq<T>, c: seq<T>)
    ensures a + b + c == a + (b + c)
  {
  }

  lemma OtherSplits(view: seq<Message>, chat: ObjectId, n: ChatEvent, rest: seq<ChatEvent>, tail: seq<Message>)
    requires !PostsTo(n, chat)
    requires forall v :: Replayed(v, chat, rest) == FinalAll(rest, chat, v) + tail
    ensures Replayed(view, chat, [n] + rest) == FinalAll([n] + rest, chat, view) + tail
  {
    assert ([n] + rest)[1..] == rest;
    assert FinalAll([n] + rest, chat, view) == FinalAll(rest, chat, ApplyNote(view, chat, n));
  }

  /** Replaying brings each message of the view to its last replacement and appends what an empty view would get. */
  lemma {:induction false} ReplayedSplits(view: seq<Message>, chat: ObjectId, notes: seq<ChatEvent>)
    ensures Replayed(view, chat, notes) == FinalAll(notes, chat, view) + Replayed([], chat, notes)
    ensures |Replayed([], chat, notes)| == PostCount(notes, chat)
    decreases |notes|
  {
    if notes == [] {
    } else {
      var n, rest := notes[0], notes[1..];
      assert [n] + rest == notes;
      var tail := Replayed([], chat, rest);
      forall v ensures Replayed(v, chat, rest) == FinalAll(rest, chat, v) + tail && |tail| == PostCount(rest, chat) {
        ReplayedSplits(v, chat, rest);
      }
      ReplayedSplits([], chat, rest);
      if PostsTo(n, chat) {
        PostSplits(view, chat, n, rest, tail);
      } else {
        OtherSplits(view, chat, n, rest, tail);
        assert ApplyNote([], chat, n) == [];
      }
    }
  }

  lemma {:induction false} FinalIdempotent(notes: seq<ChatEvent>, chat: ObjectId, m: Message, m': Message)
    requires m.id == m'.id
    ensures || Final(notes, chat, m) == Final(notes, chat, m')
            || (Final(notes, chat, m) == m && Final(notes, chat, m') == m')
    decreases |notes|
  {
    if notes == [] || (ReplacesIn(notes[0], chat) && MessageOfNote(notes[0]).value.id == m.id) {
    } else {
      FinalIdempotent(notes[1..], chat, m, m');
    }
  }

  lemma PiecesOfConcat<T>(a: seq<T>, b: seq<T>, i: nat, j: nat)
    requires i <= |a| && j <= |a|
    ensures a[..i] + a[j..] + b == (a + b)[..i] + (a + b)[j..]
  {
  }

  lemma FinalAllSlices(notes: seq<ChatEvent>, chat: ObjectId, full: seq<Message>, i: nat)
    requires i <= |full|
    ensures FinalAll(notes, chat, full[..i]) == FinalAll(notes, chat, full)[..i]
    ensures FinalAll(notes, chat, full[i..]) == FinalAll(notes, chat, full)[i..]
  {
  }

  /** A list with a piece left out or doubled keeps that shape as notifications are replayed. */
  lemma ReplayedPieces(full: seq<Message>, loaded: nat, seen: nat, chat: ObjectId, notes: seq<ChatEvent>)
    requires loaded <= |full| && seen <= |full|
    ensures var full' := Replayed(full, chat, notes);
      && |full| <= |full'|
      && Replayed(full[..loaded] + full[seen..], chat, notes) == full'[..loaded] + full'[seen..]
  {
    ReplayedSplits(full, chat, notes);
    ReplayedSplits(full[..loaded] + full[seen..], chat, notes);
    FinalAllConcat(notes, chat, full[..loaded], full[seen..]);
    FinalAllSlices(notes, chat, full, loaded);
    FinalAllSlices(notes, chat, full, seen);
    PiecesOfConcat(FinalAll(notes, chat, full), Replayed([], chat, notes), loaded, seen);
  }

  // ---- Loading a list while notifications are pending ----

  /** Some earlier view, with these notifications replayed, gives the full view. */
  ghost predicate Explained(notes: seq<ChatEvent>, chat: ObjectId, full: seq<Message>) {
    exists before :: Replayed(before, chat, notes) == full
  }

  /** No message is replaced before it is posted. */
  ghost predicate Ordered(notes: seq<ChatEvent>, chat: ObjectId) {
    forall i, j :: 0 <= i < j < |notes| && ReplacesIn(notes[i], chat) && PostsTo(notes[j], chat) ==>
      MessageOfNote(notes[i]).value.id != MessageOfNote(notes[j]).value.id
  }

  lemma {:induction false} TailIsPosted(notes: seq<ChatEvent>, chat: ObjectId, k: nat)
    requires k < |Replayed([], chat, notes)|
    ensures exists j :: 0 <= j < |notes| && PostsTo(notes[j], chat) &&
                        MessageOfNote(notes[j]).value.id == Replayed([], chat, notes)[k].id
    decreases |notes|
  {
    var n, rest := notes[0], notes[1..];
    ReplayedSplits(ApplyNote([], chat, n), chat, rest);
    if PostsTo(n, chat) && k == 0 {
      assert Replayed([], chat, notes)[0] == Final(rest, chat, MessageOfNote(n).value);
    } else {
      var k' := if PostsTo(n, chat) then k - 1 else k;
      assert Replayed([], chat, notes)[k] == Replayed([], chat, rest)[k'];
      TailIsPosted(rest, chat, k');
      var j :| 0 <= j < |rest| && PostsTo(rest[j], chat) &&
               MessageOfNote(rest[j]).value.id == Replayed([], chat, rest)[k'].id;
      assert notes[j + 1] == rest[j];
    }
  }

  /** What the notifications post is not changed by replaying them once more. */
  lemma {:induction false} TailIsFinal(notes: seq<ChatEvent>, chat: ObjectId, k: nat)
    requires Ordered(notes, chat) && k < |Replayed([], chat, notes)|
    ensures Final(notes, chat, Replayed([], chat, notes)[k]) == Replayed([], chat, notes)[k]
    decreases |notes|
  {
    var n, rest := notes[0], notes[1..];
    ReplayedSplits(ApplyNote([], chat, n), chat, rest);
    var t := Replayed([], chat, notes)[k];
    if PostsTo(n, chat) && k == 0 {
      assert t == Final(rest, chat, MessageOfNote(n).value);
      FinalIdempotent(rest, chat, t, MessageOfNote(n).value);
    } else {
      var k' := if PostsTo(n, chat) then k - 1 else k;
      assert t == Replayed([], chat, rest)[k'];
      assert forall i :: 0 <= i < |rest| ==> rest[i] == notes[i + 1];
      TailIsFinal(rest, chat, k');
      TailIsPosted(rest, chat, k');
    }
  }

  lemma LoadedIsFinal(before: seq<Message>, chat: ObjectId, notes: seq<ChatEvent>, loaded: nat)
    requires loaded <= |Replayed(before, chat, notes)|
    requires loaded <= |before| || Ordered(notes, chat)
    ensures FinalAll(notes, chat, Replayed(before, chat, notes)[..loaded]) == Replayed(before, chat, notes)[..loaded]
  {
    var full := Replayed(before, chat, notes);
    ReplayedSplits(before, chat, notes);
    forall i | 0 <= i < loaded ensures Final(notes, chat, full[i]) == full[i] {
      if i < |before| {
        FinalIdempotent(notes, chat, full[i], before[i]);
      } else {
        TailIsFinal(notes, chat, i - |before|);
      }
    }
  }

  // ---- A loaded list, from the load on ----

  /** With these notifications replayed, the loaded messages are the first ones of the full list. */
  ghost predicate LeadsTo(loaded: seq<Message>, chat: ObjectId, notes: seq<ChatEvent>, full: seq<Message>) {
    |loaded| <= |full| && full[..|loaded|] == FinalAll(notes, chat, loaded)
  }

  /** What the notifications post is the end of the full list. */
  ghost predicate EndsWith(seen: nat, chat: ObjectId, notes: seq<ChatEvent>, full: seq<Message>) {
    seen <= |full| && Replayed([], chat, notes) == full[seen..]
  }

  lemma LoadedLeads(notes: seq<ChatEvent>, chat: ObjectId, full: seq<Message>, loaded: nat)
    requires Explained(notes, chat, full) && Ordered(notes, chat) && loaded <= |full|
    ensures LeadsTo(full[..loaded], chat, notes, full)
  {
    var before :| Replayed(before, chat, notes) == full;
    LoadedIsFinal(before, chat, notes, loaded);
  }

  lemma PostedEnds(notes: seq<ChatEvent>, chat: ObjectId, full: seq<Message>)
    requires Explained(notes, chat, full)
    ensures PostCount(notes, chat) <= |full| && EndsWith(|full| - PostCount(notes, chat), chat, notes, full)
  {
    var before :| Replayed(before, chat, notes) == full;
    ReplayedSplits(before, chat, notes);
  }

  lemma EndsCount(seen: nat, chat: ObjectId, notes: seq<ChatEvent>, full: seq<Message>)
    requires EndsWith(seen, chat, notes, full)
    ensures seen + PostCount(notes, chat) == |full|
  {
    ReplayedSplits([], chat, notes);
  }

  lemma {:induction false} FinalConcat(a: seq<ChatEvent>, b: seq<ChatEvent>, chat: ObjectId, m: Message)
    ensures Final(a + b, chat, m) == Final(b, chat, Final(a, chat, m))
    decreases |a|
  {
    if a == [] {
      assert a + b == b;
    } else {
      assert (a + b)[1..] == a[1..] + b;
      FinalConcat(a[1..], b, chat,
        if ReplacesIn(a[0], chat) && MessageOfNote(a[0]).value.id == m.id then MessageOfNote(a[0]).value else m);
    }
  }

  lemma FinalAllTwice(a: seq<ChatEvent>, b: seq<ChatEvent>, chat: ObjectId, view: seq<Message>)
    ensures FinalAll(a + b, chat, view) == FinalAll(b, chat, FinalAll(a, chat, view))
  {
    forall i | 0 <= i < |view| ensures Final(a + b, chat, view[i]) == Final(b, chat, Final(a, chat, view[i])) {
      FinalConcat(a, b, chat, view[i]);
    }
  }

  lemma LeadsOn(loaded: seq<Message>, chat: ObjectId, notes: seq<ChatEvent>, more: seq<ChatEvent>, full: seq<Message>)
    requires LeadsTo(loaded, chat, notes, full)
    ensures LeadsTo(loaded, chat, notes + more, Replayed(full, chat, more))
  {
    ReplayedSplits(full, chat, more);
    FinalAllSlices(more, chat, full, |loaded|);
    FinalAllTwice(notes, more, chat, loaded);
  }

  lemma EndsOn(seen: nat, chat: ObjectId, notes: seq<ChatEvent>, more: seq<ChatEvent>, full: seq<Message>)
    requires EndsWith(seen, chat, notes, full)
    ensures EndsWith(seen, chat, notes + more, Replayed(full, chat, more))
  {
    ReplayedConcat([], chat, notes, more);
    ReplayedPieces(full, 0, seen, chat, more);
    assert full[..0] + full[seen..] == full[seen..];
  }

  // ---- When such a list is right ----

  /** Some notification replaces the message of this id. */
  predicate Replaced(notes: seq<ChatEvent>, chat: ObjectId, id: ObjectId) {
    && notes != []
    && ((ReplacesIn(notes[0], chat) && MessageOfNote(notes[0]).value.id == id) || Replaced(notes[1..], chat, id))
  }

  /** What passed between the load and the show left this message as it was, or it is replaced again afterwards. */
  predicate Caught(m: Message, chat: ObjectId, missed: seq<ChatEvent>, after: seq<ChatEvent>) {
    Replaced(after, chat, m.id) || Final(missed, chat, m) == m
  }

  predicate AllCaught(loaded: seq<Message>, chat: ObjectId, missed: seq<ChatEvent>, after: seq<ChatEvent>) {
    forall i :: 0 <= i < |loaded| ==> Caught(loaded[i], chat, missed, after)
  }

  lemma {:induction false} ReplacedDecides(notes: seq<ChatEvent>, chat: ObjectId, m: Message, m': Message)
    requires m.id == m'.id
    ensures if Replaced(notes, chat, m.id) then Final(notes, chat, m) == Final(notes, chat, m')
            else Final(notes, chat, m) == m && Final(notes, chat, m') == m'
    decreases |notes|
  {
    if notes == [] || (ReplacesIn(notes[0], chat) && MessageOfNote(notes[0]).value.id == m.id) {
    } else {
      ReplacedDecides(notes[1..], chat, m, m');
    }
  }

  lemma CaughtExactly(m: Message, chat: ObjectId, missed: seq<ChatEvent>, after: seq<ChatEvent>)
    ensures Final(missed + after, chat, m) == Final(after, chat, m) <==> Caught(m, chat, missed, after)
  {
    FinalConcat(missed, after, chat, m);
    ReplacedDecides(after, chat, m, Final(missed, chat, m));
  }

  lemma AllCaughtExactly(loaded: seq<Message>, chat: ObjectId, missed: seq<ChatEvent>, after: seq<ChatEvent>)
    ensures FinalAll(missed + after, chat, loaded) == FinalAll(after, chat, loaded) <==>
            AllCaught(loaded, chat, missed, after)
  {
    var a, b := FinalAll(missed + after, chat, loaded), FinalAll(after, chat, loaded);
    forall i | 0 <= i < |loaded| ensures a[i] == b[i] <==> Caught(loaded[i], chat, missed, after) {
      CaughtExactly(loaded[i], chat, missed, after);
    }
    assert (forall i :: 0 <= i < |loaded| ==> a[i] == b[i]) ==> a == b;
  }

  /** A list put together from `first` and the end of `full` is `full` exactly when they meet and `first` is its
      start. */
  lemma FirstAndRest<T>(full: seq<T>, start: seq<T>, first: seq<T>, seen: nat)
    requires seen <= |full| && |first| == |start| <= |full| && start == full[..|start|]
    ensures first + full[seen..] == full <==> |first| == seen && start == first
  {
    assert |first + full[seen..]| == |first| + |full| - seen;
    assert |first| == seen && start == first ==> first + full[seen..] == full;
    assert first + full[seen..] == full ==> first == full[..|first|];
  }

  lemma ShownFromLoad(loaded: seq<Message>, chat: ObjectId, after: seq<ChatEvent>, full: seq<Message>)
    requires PostCount(after, chat) <= |full| && EndsWith(|full| - PostCount(after, chat), chat, after, full)
    ensures Replayed(loaded, chat, after) == FinalAll(after, chat, loaded) + full[|full| - PostCount(after, chat)..]
  {
    ReplayedSplits(loaded, chat, after);
  }

  /** A list loaded at one moment, shown after `missed` went by, and kept up to date from then on, becomes its messages
      at their last replacement since the show, followed by every message posted since. That is the full list exactly
      when the messages loaded and those posted since the show make it up, and no message loaded was replaced between
      load and show for good. */
  lemma LoadingIsSafeExactly(
    loaded: seq<Message>, chat: ObjectId, missed: seq<ChatEvent>, after: seq<ChatEvent>, full: seq<Message>)
    requires LeadsTo(loaded, chat, missed + after, full)
    requires PostCount(after, chat) <= |full| && EndsWith(|full| - PostCount(after, chat), chat, after, full)
    ensures Replayed(loaded, chat, after) == FinalAll(after, chat, loaded) + full[|full| - PostCount(after, chat)..]
    ensures Replayed(loaded, chat, after) == full <==>
            |loaded| + PostCount(after, chat) == |full| && AllCaught(loaded, chat, missed, after)
  {
    var start, first := FinalAll(missed + after, chat, loaded), FinalAll(after, chat, loaded);
    var seen := |full| - PostCount(after, chat);
    ShownFromLoad(loaded, chat, after, full);
    AllCaughtExactly(loaded, chat, missed, after);
    FirstAndRest(full, start, first, seen);
    assert |first| == seen <==> |loaded| + PostCount(after, chat) == |full|;
  }

  /** Notifications that were pending at the load, and are consumed before the show, do no harm to what was loaded. */
  lemma PendingReplacementsAreCaught(
    missed: seq<ChatEvent>, rest: seq<ChatEvent>, more: seq<ChatEvent>, chat: ObjectId, full: seq<Message>, loaded: nat)
    requires Explained(missed + rest, chat, full) && Ordered(missed + rest, chat) && loaded <= |full|
    ensures AllCaught(full[..loaded], chat, missed, rest + more)
  {
    LoadedLeads(missed + rest, chat, full, loaded);
    var first := full[..loaded];
    forall i | 0 <= i < loaded ensures Caught(first[i], chat, missed, rest + more) {
      assert FinalAll(missed + rest, chat, first)[i] == first[i];
      FinalConcat(missed, rest, chat, first[i]);
      ReplacedDecides(rest, chat, first[i], Final(missed, chat, first[i]));
      ReplacedMore(rest, more, chat, first[i].id);
    }
  }

  lemma {:induction false} ReplacedMore(notes: seq<ChatEvent>, more: seq<ChatEvent>, chat: ObjectId, id: ObjectId)
    ensures Replaced(notes, chat, id) ==> Replaced(notes + more, chat, id)
    decreases |notes|
  {
    if notes == [] {
    } else {
      assert (notes + more)[1..] == notes[1..] + more;
      ReplacedMore(notes[1..], more, chat, id);
    }
  }
}
