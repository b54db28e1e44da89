/** Any number of store methods running at once, each advancing by one Redis or MongoDB call at a time. */
module Interleaving {
  import opened Wrappers
  import opened ObjectIds
  import opened Entities
  import opened Store

  /** What a method does with the author it is looking up. */
  datatype Purpose = ForSave(m: Message) | ForTouch(doc: Doc)

  /** Where a running method has got to; the name says which call comes next. */
  datatype Proc =
    | Aggregating(text: string)                         // a read whose LRANGE found nothing
    | Populating(text: string, found: seq<Message>)     // a read about to RPUSH what it found
    | GettingUser(key: string, purpose: Purpose)        // about to GET the user from Redis
    | FindingUser(key: string, purpose: Purpose)        // about to look the user up in MongoDB
    | CachingUser(user: User, purpose: Purpose)         // about to SET the user in Redis
    | Writing(user: User, purpose: Purpose)             // a save about to write, or an update about to DEL
    | Pushing(m: Message)                               // inserted, about to RPUSHX
    | Trimming(m: Message)                              // pushed, about to LTRIM
    | Dropping(m: Message)                              // saved again, about to DEL

  datatype System = System(store: StoreState, procs: map<nat, Proc>)

  datatype Action =
    | StartRead(p: nat, chatText: string)               // the LRANGE
    | StartSave(p: nat, m: Message)
    | StartTouch(p: nat, idText: string, touch: Touch)  // the find-and-update
    | Step(p: nat, freshId: ObjectId)                   // the next call of method p
    | ExpireUser(text: string)
    | CreateUserAtOnce(user: User, userId: ObjectId)

  predicate Enabled(y: System, a: Action) {
    match a
    case StartRead(p, _) => p !in y.procs
    case StartSave(p, _) => p !in y.procs
    case StartTouch(p, _, _) => p !in y.procs
    case Step(p, _) => p in y.procs
    case ExpireUser(_) => true
    case CreateUserAtOnce(_, _) => true
  }

  /** The effect of one call on the store, and where the method is afterwards: None when it has returned. */
  function Call(s: StoreState, proc: Proc, freshId: ObjectId): (StoreState, Option<Proc>) {
    match proc
    case Aggregating(text) =>
      (s, if FromHex(text).None? then None else Some(Populating(text, ChatView(s, FromHex(text).value))))
    case Populating(text, found) => (s.(lists := RPush(s.lists, text, found)), None)
    case GettingUser(key, purpose) =>
      (s, Some(if key in s.userCache then Writing(s.userCache[key], purpose) else FindingUser(key, purpose)))
    case FindingUser(key, purpose) =>
      (s, if FromHex(key).None? || FromHex(key).value !in s.users then None
          else Some(CachingUser(s.users[FromHex(key).value], purpose)))
    case CachingUser(user, purpose) =>
      (s.(userCache := s.userCache[Hex(user.id) := WithoutPassword(user)]), Some(Writing(user, purpose)))
    case Writing(user, ForTouch(doc)) => (s.(lists := Del(s.lists, Hex(doc.chatId))), None)
    case Writing(user, ForSave(m)) =>
      var m' := m.(author := user);
      if m.id == NIL_ID then
        var added := m'.(id := freshId);
        (s.(docs := s.docs + [FromInternal(added)]), Some(Pushing(added)))
      else (match FindDoc(s.docs, m.id)
        case None => (s, None)
        case Some(i) => (s.(docs := s.docs[i := FromInternal(m')]), Some(Dropping(m'))))
    case Pushing(m) =>
      (s.(lists := RPushX(s.lists, Hex(m.chatId), m)), if Hex(m.chatId) in s.lists then Some(Trimming(m)) else None)
    case Trimming(m) => (s.(lists := LTrim(s.lists, Hex(m.chatId))), None)
    case Dropping(m) => (s.(lists := Del(s.lists, Hex(m.chatId))), None)
  }

  function WithProc(y: System, p: nat, proc: Option<Proc>): map<nat, Proc> {
    if proc.Some? then y.procs[p := proc.value] else y.procs - {p}
  }

  function Next(y: System, a: Action): System
    requires Enabled(y, a)
  {
    match a
    case StartRead(p, text) =>
      if LRange(y.store.lists, text) != [] then y
      else y.(procs := y.procs[p := Aggregating(text)])
    case StartSave(p, m) => y.(procs := y.procs[p := GettingUser(m.authorId, ForSave(m))])
    case StartTouch(p, idText, t) =>
      if FromHex(idText).None? || FindDoc(y.store.docs, FromHex(idText).value).None? then y
      else
        var i := FindDoc(y.store.docs, FromHex(idText).value).value;
        var doc := ApplyTouch(y.store.docs[i], t);
        System(y.store.(docs := y.store.docs[i := doc]),
               y.procs[p := GettingUser(Hex(doc.authorId), ForTouch(doc))])
    case Step(p, freshId) =>
      var (s, proc) := Call(y.store, y.procs[p], freshId);
      System(s, WithProc(y, p, proc))
    case ExpireUser(text) => y.(store := y.store.(userCache := y.store.userCache - {text}))
    case CreateUserAtOnce(u, freshId) => y.(store := CreateUser(y.store, u, freshId).0)
  }

  const START := System(EMPTY_STORE, map[])

  ghost predicate EnabledRun(y: System, run: seq<Action>)
    decreases |run|
  {
    run == [] || (Enabled(y, run[0]) && EnabledRun(Next(y, run[0]), run[1..]))
  }

  ghost function After(y: System, run: seq<Action>): System
    requires EnabledRun(y, run)
    decreases |run|
  {
    if run == [] then y else After(Next(y, run[0]), run[1..])
  }

  // ---- A method that is not interrupted does what its whole-operation function says ----

  /** Step method `p` until it returns, at most `n` calls. */
  ghost function Finish(y: System, p: nat, freshId: ObjectId, n: nat): System
    decreases n
  {
    if n == 0 || p !in y.procs then y else Finish(Next(y, Step(p, freshId)), p, freshId, n - 1)
  }

  ghost function Drive(s: StoreState, proc: Proc, freshId: ObjectId, n: nat): (StoreState, Option<Proc>)
    decreases n
  {
    if n == 0 then (s, Some(proc))
    else
      var (s', next) := Call(s, proc, freshId);
      if next.None? then (s', None) else Drive(s', next.value, freshId, n - 1)
  }

  lemma {:induction false} FinishIsDrive(y: System, p: nat, freshId: ObjectId, n: nat)
    requires p in y.procs
    ensures var (s, proc) := Drive(y.store, y.procs[p], freshId, n);
            Finish(y, p, freshId, n) == System(s, WithProc(y, p, proc))
    decreases n
  {
    if n == 0 {
      assert y.procs[p := y.procs[p]] == y.procs;
    } else {
      var y' := Next(y, Step(p, freshId));
      if p in y'.procs {
        FinishIsDrive(y', p, freshId, n - 1);
      }
    }
  }

  /** The author lookup as calls: it takes one or three, and ends where `GetUserById` ends. */
  lemma LookupCalls(s: StoreState, key: string, purpose: Purpose, freshId: ObjectId, n: nat)
    requires n >= 3
    ensures var (s', u) := GetUserById(s, key);
            Drive(s, GettingUser(key, purpose), freshId, n) ==
            if u.Err? then (s', None)
            else Drive(s', Writing(u.value, purpose), freshId, if key in s.userCache then n - 1 else n - 3)
  {
    if key !in s.userCache && FromHex(key).Some? && FromHex(key).value in s.users {
      var u := s.users[FromHex(key).value];
      assert Drive(s, FindingUser(key, purpose), freshId, n - 1) == Drive(s, CachingUser(u, purpose), freshId, n - 2);
    }
  }

  lemma InsertCalls(s: StoreState, m: Message, u: User, freshId: ObjectId, n: nat)
    requires n >= 3 && m.id == NIL_ID
    ensures var added := m.(author := u, id := freshId);
            Drive(s, Writing(u, ForSave(m)), freshId, n) ==
            (s.(docs := s.docs + [FromInternal(added)],
                lists := LTrim(RPushX(s.lists, Hex(m.chatId), added), Hex(m.chatId))), None)
  {
    var added := m.(author := u, id := freshId);
    var s1 := s.(docs := s.docs + [FromInternal(added)]);
    assert Drive(s, Writing(u, ForSave(m)), freshId, n) == Drive(s1, Pushing(added), freshId, n - 1);
    if Hex(m.chatId) in s.lists {
      var s2 := s1.(lists := RPushX(s.lists, Hex(m.chatId), added));
      assert Drive(s1, Pushing(added), freshId, n - 1) == Drive(s2, Trimming(added), freshId, n - 2);
    }
  }

  lemma UpdateCalls(s: StoreState, m: Message, u: User, freshId: ObjectId, n: nat)
    requires n >= 3 && m.id != NIL_ID
    ensures Drive(s, Writing(u, ForSave(m)), freshId, n) ==
            (if FindDoc(s.docs, m.id).None? then s
             else s.(docs := s.docs[FindDoc(s.docs, m.id).value := FromInternal(m.(author := u))],
                     lists := Del(s.lists, Hex(m.chatId))), None)
  {
  }

  lemma SaveCalls(s: StoreState, m: Message, freshId: ObjectId)
    ensures Drive(s, GettingUser(m.authorId, ForSave(m)), freshId, 6) == (SaveMessage(s, m, freshId).state, None)
  {
    LookupCalls(s, m.authorId, ForSave(m), freshId, 6);
    var (s', u) := GetUserById(s, m.authorId);
    if u.Ok? {
      var n := if m.authorId in s.userCache then 5 else 3;
      if m.id == NIL_ID {
        InsertCalls(s', m, u.value, freshId, n);
      } else {
        UpdateCalls(s', m, u.value, freshId, n);
      }
    }
  }

  /** Whatever other methods are suspended, a save run without interruption has the effect of `SaveMessage`. */
  lemma SaveUninterrupted(y: System, p: nat, m: Message, freshId: ObjectId)
    requires p !in y.procs
    ensures Finish(Next(y, StartSave(p, m)), p, freshId, 6) == y.(store := SaveMessage(y.store, m, freshId).state)
  {
    SaveCalls(y.store, m, freshId);
    FinishIsDrive(Next(y, StartSave(p, m)), p, freshId, 6);
    assert WithProc(Next(y, StartSave(p, m)), p, None) == y.procs;
  }

  lemma ReadUninterrupted(y: System, p: nat, text: string, freshId: ObjectId)
    requires p !in y.procs
    ensures Finish(Next(y, StartRead(p, text)), p, freshId, 6) == y.(store := GetMessages(y.store, text).0)
  {
  }

  lemma TouchUninterrupted(y: System, p: nat, idText: string, t: Touch, freshId: ObjectId)
    requires p !in y.procs
    ensures Finish(Next(y, StartTouch(p, idText, t)), p, freshId, 6) == y.(store := TouchMessage(y.store, idText, t).0)
  {
    if FromHex(idText).Some? && FindDoc(y.store.docs, FromHex(idText).value).Some? {
      var y1 := Next(y, StartTouch(p, idText, t));
      var doc := y1.procs[p].purpose.doc;
      FinishIsDrive(y1, p, freshId, 6);
      assert WithProc(y1, p, None) == y.procs;
      LookupCalls(y1.store, Hex(doc.authorId), ForTouch(doc), freshId, 6);
    }
  }
}
