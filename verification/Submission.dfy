/** `Service.Accept` over `Store.Accept`: a read by key, the checks, an insert that may hit the unique key,
    and a second read after the rollback. Any number of calls interleave with each other and with every
    step of the delivery protocol. */
module Submission {
  import opened Domain
  import opened Transactions
  import opened Protocol
  import opened Fencing
  import opened Frames
  import opened Normalize

  // ---- one submission -------------------------------------------------------------------------------

  datatype Sub = Sub(target: string, mode: string, request: Request)

  predicate IsSpace(c: char) { c == ' ' || 9 <= c as int <= 13 }

  /** Not empty, at most 128 bytes, no surrounding space, no line break and no NUL. */
  predicate ValidKey(key: string) {
    0 < |key| <= 128 && !IsSpace(key[0]) && !IsSpace(key[|key| - 1]) && Clean(key)
  }

  /** What is hashed: the normalised submission without its key. */
  ghost function FormOf(key: string, raw: Sub): Option<Sub> {
    var r := raw.request.(verb := Upper(raw.request.verb));
    if ValidKey(key) && Acceptable(r) && raw.mode in {"", "async", "proxy"} then Some(raw.(request := Normal(r)))
        else None
  }

  /** Two accepted submissions have one form exactly when they ask for the same thing. */
  lemma SameFormIff(key: string, a: Sub, key': string, b: Sub)
    requires FormOf(key, a).Some? && FormOf(key', b).Some?
    ensures FormOf(key, a) == FormOf(key', b) <==>
              && a.target == b.target && a.mode == b.mode
              && SameMeaning(a.request.(verb := Upper(a.request.verb)), b.request.(verb := Upper(b.request.verb)))
  {
    hide Normal, Acceptable, SameMeaning, Upper;
    NormalIsCanonical(a.request.(verb := Upper(a.request.verb)), b.request.(verb := Upper(b.request.verb)));
  }

  // ---- the atomic map ---------------------------------------------------------------------------------

  datatype Entry = Entry(id: Id, hash: nat)

  type Book = map<(string, string), Entry>

  datatype Answer = New(id: Id) | Old(id: Id) | Clash

  type Cid = nat

  /** One operation of call `call` on the map: put unless the key is taken. */
  datatype Op = Op(call: Cid, client: string, key: string, hash: nat, answer: Answer)

  ghost predicate Fits(book: Book, op: Op) {
    var k := (op.client, op.key);
    if k !in book then op.answer.New? && forall l :: l in book ==> book[l].id != op.answer.id
    else if book[k].hash == op.hash then op.answer == Old(book[k].id)
    else op.answer == Clash
  }

  function Put(book: Book, op: Op): Book {
    if op.answer.New? then book[(op.client, op.key) := Entry(op.answer.id, op.hash)] else book
  }

  function BookAfter(log: seq<Op>): Book
    decreases |log|
  {
    if log == [] then map[] else Put(BookAfter(log[..|log| - 1]), log[|log| - 1])
  }

  /** The log is a history of the atomic map: one operation after the other, each answered by the map as
      the operations before it left it. */
  ghost predicate Serial(log: seq<Op>) {
    forall i :: 0 <= i < |log| ==> Fits(BookAfter(log[..i]), log[i])
  }

  lemma SerialAppend(log: seq<Op>, op: Op)
    requires Serial(log) && Fits(BookAfter(log), op)
    ensures Serial(log + [op]) && BookAfter(log + [op]) == Put(BookAfter(log), op)
  {
    var l := log + [op];
    assert l[..|log|] == log;
    forall i | 0 <= i < |l| ensures Fits(BookAfter(l[..i]), l[i]) {
      if i < |log| { assert l[..i] == log[..i]; }
    }
  }

  lemma {:induction false} BookGrows(log: seq<Op>, i: nat, j: nat, k: (string, string))
    requires Serial(log) && i <= j <= |log| && k in BookAfter(log[..i])
    ensures k in BookAfter(log[..j]) && BookAfter(log[..j])[k] == BookAfter(log[..i])[k]
    decreases j
  {
    if i < j {
      BookGrows(log, i, j - 1, k);
      assert log[..j][..j - 1] == log[..j - 1];
      assert Fits(BookAfter(log[..j - 1]), log[j - 1]);
    }
  }

  /** In a serial history an answer names the entry that its key has ever after. */
  lemma AnswerIsFinal(log: seq<Op>, i: nat)
    requires Serial(log) && i < |log|
    ensures var k := (log[i].client, log[i].key);
            && k in BookAfter(log)
            && (log[i].answer.New? ==> BookAfter(log)[k] == Entry(log[i].answer.id, log[i].hash))
            && (log[i].answer.Old? ==> BookAfter(log)[k] == Entry(log[i].answer.id, log[i].hash))
            && (log[i].answer.Clash? ==> BookAfter(log)[k].hash != log[i].hash)
  {
    assert log[..i + 1][..i] == log[..i] && log[..|log|] == log;
    assert Fits(BookAfter(log[..i]), log[i]);
    BookGrows(log, i + 1, |log|, (log[i].client, log[i].key));
  }

  /** In a serial history a key is created once, before all other answers about it. */
  lemma CreatedOnceFirst(log: seq<Op>, i: nat, j: nat)
    requires Serial(log) && i < |log| && j < |log| && log[i].answer.New? && i != j
    requires (log[i].client, log[i].key) == (log[j].client, log[j].key)
    ensures i < j && !log[j].answer.New?
  {
    var k := (log[i].client, log[i].key);
    assert Fits(BookAfter(log[..i]), log[i]) && Fits(BookAfter(log[..j]), log[j]);
    if i < j {
      assert log[..i + 1][..i] == log[..i];
      BookGrows(log, i + 1, j, k);
    } else {
      assert log[..j + 1][..j] == log[..j];
      BookGrows(log, j + 1, i, k);
    }
  }

  // ---- the concurrent program -------------------------------------------------------------------------

  datatype Reply = Created(row: Task) | Existing(row: Task) | Conflict | Missing | Invalid | Refused

  datatype Phase = Called | Unseen | Duplicated | Answered(reply: Reply) | Aborted

  /** `form` is the normalised submission once there is one. */
  datatype Call = Call(client: string, key: string, raw: Sub, form: Sub, phase: Phase)

  datatype System = System(p: State, calls: map<Cid, Call>, log: seq<Op>)

  datatype Act =
    | Arrive(c: Cid, client: string, key: string, raw: Sub)
    | Look(c: Cid)
    | Refuse(c: Cid)
    | Insert(c: Cid, id: Id, revision: nat, at: Time, lost: bool)
    | LookAgain(c: Cid)
    | Hang(c: Cid)
    | Other(step: Step)

  ghost function Find(tasks: map<Id, Task>, client: string, key: string): (r: Option<Id>)
    ensures r.Some? ==> r.value in tasks && SameKey(tasks[r.value], client, key)
    ensures r.None? ==> forall id :: id in tasks ==> !SameKey(tasks[id], client, key)
  {
    if exists id :: id in tasks && SameKey(tasks[id], client, key)
    then var id :| id in tasks && SameKey(tasks[id], client, key); Some(id) else None
  }

  ghost predicate In(s: System, c: Cid, phase: Phase) { c in s.calls && s.calls[c].phase == phase }

  ghost predicate Able(cfg: Config, s: System, now: Time, a: Act) {
    match a
    case Arrive(c, client, key, raw) => c !in s.calls
    case Look(c) => In(s, c, Called)
    case Refuse(c) => In(s, c, Unseen)
    case Insert(c, id, revision, at, lost) =>
      In(s, c, Unseen) && (revision, s.calls[c].raw.target) in cfg && id !in s.p.db.tasks && at <= now
    case LookAgain(c) => In(s, c, Duplicated)
    case Hang(c) => c in s.calls && !s.calls[c].phase.Answered?
    case Other(step) => !step.Submit? && Protocol.Enabled(cfg, s.p, now, step)
  }

  function Moved(s: System, c: Cid, phase: Phase): System
    requires c in s.calls
  {
    s.(calls := s.calls[c := s.calls[c].(phase := phase)])
  }

  ghost function Logged(s: System, c: Cid, h: nat, answer: Answer): System
    requires c in s.calls
  {
    s.(log := s.log + [Op(c, s.calls[c].client, s.calls[c].key, h, answer)])
  }

  /** A read by key, and the comparison of the hashes when it finds a row. */
  ghost function Read(s: System, c: Cid, h: nat, otherwise: Phase): System
    requires c in s.calls
  {
    var x := s.calls[c];
    var found := Find(s.p.db.tasks, x.client, x.key);
    if found.None? then Moved(s, c, otherwise)
    else
      var row := s.p.db.tasks[found.value];
      if row.hash == h then Logged(Moved(s, c, Answered(Existing(row))), c, h, Old(found.value))
      else Logged(Moved(s, c, Answered(Conflict)), c, h, Clash)
  }

  ghost function Perform(cfg: Config, hash: Sub -> nat, s: System, now: Time, a: Act): System
    requires Able(cfg, s, now, a)
  {
    match a
    case Arrive(c, client, key, raw) =>
      var f := FormOf(key, raw);
      s.(calls := s.calls[c := if f.None? then Call(client, key, raw, raw, Answered(Invalid))
          else Call(client, key, raw, f.value, Called)])
    case Look(c) => Read(s, c, hash(s.calls[c].form), Unseen)
    case Refuse(c) => Moved(s, c, Answered(Refused))
    case Insert(c, id, revision, at, lost) =>
      var x := s.calls[c];
      var h := hash(x.form);
      if Find(s.p.db.tasks, x.client, x.key).Some? then Moved(s, c, Duplicated)
      else
        var p' := Protocol.Apply(cfg, s.p, now, Submit(id, x.client, x.key, h, x.raw.target, revision, at));
        Logged(Moved(s, c, if lost then Aborted else Answered(Created(p'.db.tasks[id]))), c, h, New(id)).(p := p')
    case LookAgain(c) => Read(s, c, hash(s.calls[c].form), Answered(Missing))
    case Hang(c) => Moved(s, c, Aborted)
    case Other(step) => s.(p := Protocol.Apply(cfg, s.p, now, step))
  }

  ghost predicate Start(s: System) { Initial(s.p) && s == System(s.p, map[], []) }

  datatype Turn = Turn(now: Time, act: Act)

  ghost predicate Possible(cfg: Config, hash: Sub -> nat, s: System, turns: seq<Turn>)
    decreases |turns|
  {
    turns == [] || (Able(cfg, s, turns[0].now, turns[0].act)
                    && Possible(cfg, hash, Perform(cfg, hash, s, turns[0].now, turns[0].act), turns[1..]))
  }

  ghost function Play(cfg: Config, hash: Sub -> nat, s: System, turns: seq<Turn>): System
    requires Possible(cfg, hash, s, turns)
    decreases |turns|
  {
    if turns == [] then s else Play(cfg, hash, Perform(cfg, hash, s, turns[0].now, turns[0].act), turns[1..])
  }

  /** Reachable with arbitrary interleavings, crashes and clock readings. */
  ghost predicate Arises(cfg: Config, hash: Sub -> nat, s: System) {
    exists s0: System, turns: seq<Turn> :: Start(s0) && Possible(cfg, hash, s0, turns)
        && Play(cfg, hash, s0, turns) == s
  }

  // ---- the invariant ----------------------------------------------------------------------------------

  /** The tables hold what the map holds. */
  ghost predicate Mirrors(book: Book, tasks: map<Id, Task>) {
    && (forall id :: id in tasks ==>
          var k := (tasks[id].client, tasks[id].key); k in book && book[k] == Entry(id, tasks[id].hash))
    && (forall k :: k in book ==> book[k].id in tasks && (tasks[book[k].id].client, tasks[book[k].id].key) == k)
  }

  ghost predicate Unlogged(log: seq<Op>, c: Cid) { forall i :: 0 <= i < |log| ==> log[i].call != c }

  /** The answer that a reply gives to its client. */
  function AnswerOf(r: Reply): Option<Answer> {
    match r
    case Created(row) => Some(New(row.id))
    case Existing(row) => Some(Old(row.id))
    case Conflict => Some(Clash)
    case _ => None
  }

  ghost predicate HasOp(log: seq<Op>, op: Op) { exists i :: 0 <= i < |log| && log[i] == op }

  ghost predicate CallOk(hash: Sub -> nat, c: Cid, x: Call, log: seq<Op>) {
    && (x.phase == Answered(Invalid) <==> FormOf(x.key, x.raw).None?)
    && (FormOf(x.key, x.raw).Some? ==> x.form == FormOf(x.key, x.raw).value)
    && x.phase != Answered(Missing)
    && (x.phase == Duplicated ==> (x.client, x.key) in BookAfter(log))
    && (x.phase.Answered? && AnswerOf(x.phase.reply).Some? ==>
          HasOp(log, Op(c, x.client, x.key, hash(x.form), AnswerOf(x.phase.reply).value)))
    && (!x.phase.Aborted? && !(x.phase.Answered? && AnswerOf(x.phase.reply).Some?) ==> Unlogged(log, c))
  }

  ghost predicate CallsOk(hash: Sub -> nat, calls: map<Cid, Call>, log: seq<Op>) {
    forall c :: c in calls ==> CallOk(hash, c, calls[c], log)
  }

  ghost predicate LogOk(hash: Sub -> nat, calls: map<Cid, Call>, log: seq<Op>) {
    && (forall i :: 0 <= i < |log| ==> log[i].call in calls && var x := calls[log[i].call];
        log[i].client == x.client && log[i].key == x.key && log[i].hash == hash(x.form))
    && (forall i, j :: 0 <= i < j < |log| ==> log[i].call != log[j].call)
  }

  ghost predicate Sound(cfg: Config, hash: Sub -> nat, s: System) {
    && Reachable(cfg, s.p) && Serial(s.log) && Mirrors(BookAfter(s.log), s.p.db.tasks)
    && CallsOk(hash, s.calls, s.log) && LogOk(hash, s.calls, s.log)
  }

  // ---- the steps of the delivery protocol -------------------------------------------------------------

  /** The tables always evolve by legal steps of the protocol, so that all its guarantees apply. */
  lemma ReachableStep(cfg: Config, s: State, now: Time, a: Step)
    requires Reachable(cfg, s) && Protocol.Enabled(cfg, s, now, a)
    ensures Reachable(cfg, Protocol.Apply(cfg, s, now, a))
  {
    hide Legal, Run, Protocol.Enabled, Protocol.Apply;
    var s0: State, script: seq<Move> :| Initial(s0) && Legal(cfg, s0, script) && Run(cfg, s0, script) == s;
    LegalAppend(cfg, s0, script, On(now, a));
  }

  lemma BackgroundKeepsBook(cfg: Config, s: State, now: Time, a: Step, book: Book)
    requires Reachable(cfg, s) && Protocol.Enabled(cfg, s, now, a) && !a.Submit? && Mirrors(book, s.db.tasks)
    ensures Mirrors(book, Protocol.Apply(cfg, s, now, a).db.tasks)
  {
    hide Protocol.Enabled, Protocol.Apply, Fence, Reachable;
    var s' := Protocol.Apply(cfg, s, now, a);
    ReachableFenced(cfg, s);
    StepFenced(cfg, s, now, a);
    StepFramed(cfg, s, now, a);
    forall id | id in s.db.tasks ensures SameIdentity(s.db.tasks[id], s'.db.tasks[id]) {
      assert RowEvolves(s.db.tasks[id], s'.db.tasks[id], s.issued);
    }
  }

  // ---- the steps of the calls -------------------------------------------------------------------------

  lemma FindInBook(book: Book, tasks: map<Id, Task>, client: string, key: string)
    requires Mirrors(book, tasks)
    ensures var found := Find(tasks, client, key);
            && (found.Some? <==> (client, key) in book)
            && (found.Some? ==> book[(client, key)] == Entry(found.value, tasks[found.value].hash))
  {
    if (client, key) in book { assert SameKey(tasks[book[(client, key)].id], client, key); }
  }

  lemma HasOpGrows(log: seq<Op>, op: Op, more: Op)
    requires HasOp(log, op)
    ensures HasOp(log + [more], op)
  {
    var i :| 0 <= i < |log| && log[i] == op;
    assert (log + [more])[i] == op;
  }

  /** A call moves on without an answer from the map. */
  lemma MovedSound(cfg: Config, hash: Sub -> nat, s: System, c: Cid, phase: Phase)
    requires Sound(cfg, hash, s) && c in s.calls && Unlogged(s.log, c)
    requires FormOf(s.calls[c].key, s.calls[c].raw).Some?
    requires phase != Answered(Missing) && phase != Answered(Invalid)
    requires phase == Duplicated ==> (s.calls[c].client, s.calls[c].key) in BookAfter(s.log)
    requires phase.Answered? ==> AnswerOf(phase.reply).None?
    ensures Sound(cfg, hash, Moved(s, c, phase))
  {
    hide Reachable, Serial, Mirrors, FormOf;
  }

  lemma OthersKeep(hash: Sub -> nat, calls: map<Cid, Call>, log: seq<Op>, op: Op, d: Cid)
    requires CallsOk(hash, calls, log) && d in calls && d != op.call && Fits(BookAfter(log), op)
    ensures CallOk(hash, d, calls[d], log + [op])
  {
    hide FormOf, HasOp;
    var x := calls[d];
    assert (log + [op])[..|log|] == log;
    if x.phase.Answered? && AnswerOf(x.phase.reply).Some? {
      HasOpGrows(log, Op(d, x.client, x.key, hash(x.form), AnswerOf(x.phase.reply).value), op);
    }
  }

  /** A call is answered by one operation on the map, at this very step. */
  lemma LoggedSound(cfg: Config, hash: Sub -> nat, s: System, c: Cid, phase: Phase, answer: Answer, p': State)
    requires Sound(cfg, hash, s) && c in s.calls && Unlogged(s.log, c)
    requires FormOf(s.calls[c].key, s.calls[c].raw).Some?
    requires phase == Aborted || (phase.Answered? && AnswerOf(phase.reply) == Some(answer))
    requires var op := Op(c, s.calls[c].client, s.calls[c].key, hash(s.calls[c].form), answer);
             Fits(BookAfter(s.log), op) && Reachable(cfg, p') && Mirrors(Put(BookAfter(s.log), op), p'.db.tasks)
    ensures Sound(cfg, hash, Logged(Moved(s, c, phase), c, hash(s.calls[c].form), answer).(p := p'))
  {
    hide Reachable, Serial, Mirrors, FormOf, Fits, BookAfter;
    var op := Op(c, s.calls[c].client, s.calls[c].key, hash(s.calls[c].form), answer);
    var z := Logged(Moved(s, c, phase), c, hash(s.calls[c].form), answer);
    SerialAppend(s.log, op);
    assert z.log == s.log + [op] && z.log[|s.log|] == op;
    forall d | d in z.calls ensures CallOk(hash, d, z.calls[d], z.log) {
      if d != c { OthersKeep(hash, s.calls, s.log, op, d); } else { assert HasOp(z.log, op); }
    }
  }

  lemma ReadSound(cfg: Config, hash: Sub -> nat, s: System, c: Cid, otherwise: Phase)
    requires Sound(cfg, hash, s) && c in s.calls && Unlogged(s.log, c) && FormOf(s.calls[c].key, s.calls[c].raw).Some?
    requires otherwise == Unseen || (otherwise == Answered(Missing)
          && (s.calls[c].client, s.calls[c].key) in BookAfter(s.log))
    ensures Sound(cfg, hash, Read(s, c, hash(s.calls[c].form), otherwise))
  {
    hide Reachable, Serial, FormOf, Sound;
    var x := s.calls[c];
    var h := hash(x.form);
    assert Mirrors(BookAfter(s.log), s.p.db.tasks) && Reachable(cfg, s.p) by { SoundParts(cfg, hash, s); }
    FindInBook(BookAfter(s.log), s.p.db.tasks, x.client, x.key);
    ReachableIds(cfg, s.p);
    var found := Find(s.p.db.tasks, x.client, x.key);
    if found.None? {
      MovedSound(cfg, hash, s, c, otherwise);
    } else if s.p.db.tasks[found.value].hash == h {
      LoggedSound(cfg, hash, s, c, Answered(Existing(s.p.db.tasks[found.value])), Old(found.value), s.p);
    } else {
      LoggedSound(cfg, hash, s, c, Answered(Conflict), Clash, s.p);
    }
  }

  lemma SoundParts(cfg: Config, hash: Sub -> nat, s: System)
    requires Sound(cfg, hash, s)
    ensures Reachable(cfg, s.p) && Serial(s.log) && Mirrors(BookAfter(s.log), s.p.db.tasks)
  {
  }

  lemma ReachableIds(cfg: Config, s: State)
    requires Reachable(cfg, s)
    ensures forall id :: id in s.db.tasks ==> s.db.tasks[id].id == id
  {
    hide Reachable;
    ReachableFenced(cfg, s);
  }

  lemma InsertedMirrors(cfg: Config, s: State, now: Time, step: Step, book: Book, op: Op)
    requires step.Submit? && Protocol.Enabled(cfg, s, now, step) && Mirrors(book, s.db.tasks)
    requires op.client == step.client && op.key == step.key && op.hash == step.hash && op.answer == New(step.id)
    requires (op.client, op.key) !in book
    ensures var s' := Protocol.Apply(cfg, s, now, step);
            && Mirrors(Put(book, op), s'.db.tasks) && Fits(book, op)
            && step.id in s'.db.tasks && s'.db.tasks[step.id].id == step.id
  {
  }

  lemma InsertSound(cfg: Config, hash: Sub -> nat, s: System, now: Time, a: Act)
    requires Sound(cfg, hash, s) && a.Insert? && Able(cfg, s, now, a)
    ensures Sound(cfg, hash, Perform(cfg, hash, s, now, a))
  {
    hide Reachable, Serial, FormOf;
    var x := s.calls[a.c];
    var book := BookAfter(s.log);
    assert CallOk(hash, a.c, x, s.log);
    FindInBook(book, s.p.db.tasks, x.client, x.key);
    if Find(s.p.db.tasks, x.client, x.key).Some? {
      MovedSound(cfg, hash, s, a.c, Duplicated);
    } else {
      var h := hash(x.form);
      var step := Submit(a.id, x.client, x.key, h, x.raw.target, a.revision, a.at);
      assert Protocol.Enabled(cfg, s.p, now, step);
      hide Protocol.Enabled, Protocol.Apply, Mirrors, BookAfter, Fits, CallOk;
      ReachableStep(cfg, s.p, now, step);
      InsertedMirrors(cfg, s.p, now, step, book, Op(a.c, x.client, x.key, h, New(a.id)));
      var p' := Protocol.Apply(cfg, s.p, now, step);
      LoggedSound(cfg, hash, s, a.c, if a.lost then Aborted else Answered(Created(p'.db.tasks[a.id])), New(a.id), p');
    }
  }

  lemma ArriveSound(cfg: Config, hash: Sub -> nat, s: System, now: Time, a: Act)
    requires Sound(cfg, hash, s) && a.Arrive? && Able(cfg, s, now, a)
    ensures Sound(cfg, hash, Perform(cfg, hash, s, now, a))
  {
    hide Reachable, Serial, Mirrors, FormOf, BookAfter;
    assert Unlogged(s.log, a.c);
  }

  lemma StepSound(cfg: Config, hash: Sub -> nat, s: System, now: Time, a: Act)
    requires Sound(cfg, hash, s) && Able(cfg, s, now, a)
    ensures Sound(cfg, hash, Perform(cfg, hash, s, now, a))
  {
    hide Reachable, Serial, Mirrors, FormOf, BookAfter, Protocol.Enabled, Protocol.Apply;
    match a
    case Arrive(_, _, _, _) => ArriveSound(cfg, hash, s, now, a);
    case Look(c) =>
      assert CallOk(hash, c, s.calls[c], s.log);
      ReadSound(cfg, hash, s, c, Unseen);
    case Refuse(c) =>
      assert CallOk(hash, c, s.calls[c], s.log);
      MovedSound(cfg, hash, s, c, Answered(Refused));
    case Insert(_, _, _, _, _) => InsertSound(cfg, hash, s, now, a);
    case LookAgain(c) =>
      assert CallOk(hash, c, s.calls[c], s.log);
      ReadSound(cfg, hash, s, c, Answered(Missing));
    case Hang(c) =>
      assert CallOk(hash, c, s.calls[c], s.log);
    case Other(step) =>
      ReachableStep(cfg, s.p, now, step);
      BackgroundKeepsBook(cfg, s.p, now, step, BookAfter(s.log));
  }

  lemma {:induction false} PlaySound(cfg: Config, hash: Sub -> nat, s: System, turns: seq<Turn>)
    requires Sound(cfg, hash, s) && Possible(cfg, hash, s, turns)
    ensures Sound(cfg, hash, Play(cfg, hash, s, turns))
    decreases |turns|
  {
    hide Sound, Able, Perform;
    if turns != [] {
      StepSound(cfg, hash, s, turns[0].now, turns[0].act);
      PlaySound(cfg, hash, Perform(cfg, hash, s, turns[0].now, turns[0].act), turns[1..]);
    }
  }

  lemma ArisesSound(cfg: Config, hash: Sub -> nat, s: System)
    requires Arises(cfg, hash, s)
    ensures Sound(cfg, hash, s)
  {
    hide Possible, Play;
    var s0: System, turns: seq<Turn> :| Start(s0) && Possible(cfg, hash, s0, turns) && Play(cfg, hash, s0, turns) == s;
    assert Reachable(cfg, s0.p) by {
      assert Legal(cfg, s0.p, []) && Run(cfg, s0.p, []) == s0.p;
    }
    hide Reachable;
    PlaySound(cfg, hash, s0, turns);
  }

  // ---- the results ------------------------------------------------------------------------------------

  /** In every interleaving the calls behave as operations on one atomic map: the tables hold exactly what
      the serial history of the answered operations leaves, every answer a client got is that of its own
      single operation, and no call ends in "not found". */
  lemma AcceptIsAtomic(cfg: Config, hash: Sub -> nat, s: System)
    requires Arises(cfg, hash, s)
    ensures Serial(s.log) && Mirrors(BookAfter(s.log), s.p.db.tasks)
    ensures forall i, j :: 0 <= i < j < |s.log| ==> s.log[i].call != s.log[j].call
    ensures forall c :: c in s.calls && s.calls[c].phase.Answered? ==>
              var x := s.calls[c];
              && x.phase.reply != Missing
              && (AnswerOf(x.phase.reply).Some? ==> HasOp(s.log,
                  Op(c, x.client, x.key, hash(x.form), AnswerOf(x.phase.reply).value)))
              && (AnswerOf(x.phase.reply).None? ==> Unlogged(s.log, c))
  {
    ArisesSound(cfg, hash, s);
    hide Arises, Reachable, Serial, Mirrors, FormOf, BookAfter;
    forall c | c in s.calls ensures CallOk(hash, c, s.calls[c], s.log) {}
  }

  /** The point where an operation takes effect lies inside its call: a step adds at most one operation,
      that of the very call that moves, which was not finished before the step and is after it. */
  lemma OperationsAreTimely(cfg: Config, hash: Sub -> nat, s: System, now: Time, a: Act)
    requires Able(cfg, s, now, a)
    ensures var s' := Perform(cfg, hash, s, now, a);
            || (s'.log == s.log && s'.p.db.tasks.Keys == s.p.db.tasks.Keys)
            || (exists op: Op :: s'.log == s.log + [op] && op.call in s.calls && !s.calls[op.call].phase.Answered?
                  && s.calls[op.call].phase != Aborted && (s'.calls[op.call].phase.Answered?
                      || s'.calls[op.call].phase == Aborted))
  {
    hide FormOf, Protocol.Enabled, Protocol.Apply;
    var s' := Perform(cfg, hash, s, now, a);
    if a.Other? {
      StepFramed(cfg, s.p, now, a.step);
    } else if s'.log != s.log {
      assert s'.log == s.log + [s'.log[|s.log|]];
    }
  }

  /** What call c was told about its key is true of the tables ever after. */
  lemma ToldTheTruth(cfg: Config, hash: Sub -> nat, s: System, c: Cid)
    requires Arises(cfg, hash, s) && c in s.calls && s.calls[c].phase.Answered?
    ensures var x := s.calls[c]; var k := (x.client, x.key); var book := BookAfter(s.log);
            && (AnswerOf(x.phase.reply).Some? ==> k in book)
            && (x.phase.reply.Created? || x.phase.reply.Existing? ==>
                book[k] == Entry(x.phase.reply.row.id, hash(x.form)))
            && (x.phase.reply.Conflict? ==> book[k].hash != hash(x.form))
  {
    AcceptIsAtomic(cfg, hash, s);
    hide Arises, FormOf, BookAfter, Serial, Mirrors;
    var x := s.calls[c];
    if AnswerOf(x.phase.reply).Some? {
      var i :| 0 <= i < |s.log| && s.log[i] == Op(c, x.client, x.key, hash(x.form), AnswerOf(x.phase.reply).value);
      AnswerIsFinal(s.log, i);
    }
  }

  lemma OneRow(book: Book, tasks: map<Id, Task>, k: (string, string))
    requires Mirrors(book, tasks)
    ensures k in book ==> book[k].id in tasks && forall id :: id in tasks && SameKey(tasks[id], k.0, k.1) ==>
          id == book[k].id
  {
  }

  lemma CreatedByOne(cfg: Config, hash: Sub -> nat, s: System, c: Cid, d: Cid)
    requires Arises(cfg, hash, s) && c in s.calls && d in s.calls && c != d
    requires s.calls[c].client == s.calls[d].client && s.calls[c].key == s.calls[d].key
    requires s.calls[c].phase.Answered? && s.calls[d].phase.Answered? && s.calls[c].phase.reply.Created?
    ensures !s.calls[d].phase.reply.Created?
  {
    AcceptIsAtomic(cfg, hash, s);
    hide Arises, FormOf, BookAfter, Serial, Mirrors;
    var x, y := s.calls[c], s.calls[d];
    var i :| 0 <= i < |s.log| && s.log[i] == Op(c, x.client, x.key, hash(x.form), AnswerOf(x.phase.reply).value);
    if AnswerOf(y.phase.reply).Some? {
      var j :| 0 <= j < |s.log| && s.log[j] == Op(d, y.client, y.key, hash(y.form), AnswerOf(y.phase.reply).value);
      CreatedOnceFirst(s.log, i, j);
    }
  }

  /** Of all calls with one client and key, at most one sees `created`; every other success returns that
      same task and carries the same hash; a conflict carries another hash; and the table holds one task
      for the key. */
  lemma OneTaskPerKey(cfg: Config, hash: Sub -> nat, s: System, c: Cid, d: Cid)
    requires Arises(cfg, hash, s) && c in s.calls && d in s.calls && c != d
    requires s.calls[c].client == s.calls[d].client && s.calls[c].key == s.calls[d].key
    requires s.calls[c].phase.Answered? && s.calls[d].phase.Answered?
    requires s.calls[c].phase.reply.Created? || s.calls[c].phase.reply.Existing?
    ensures var x, y := s.calls[c], s.calls[d];
            && !(x.phase.reply.Created? && y.phase.reply.Created?)
            && (y.phase.reply.Created? || y.phase.reply.Existing? ==>
                  y.phase.reply.row.id == x.phase.reply.row.id && hash(y.form) == hash(x.form))
            && (y.phase.reply.Conflict? ==> hash(y.form) != hash(x.form))
            && x.phase.reply.row.id in s.p.db.tasks
            && forall id :: id in s.p.db.tasks && SameKey(s.p.db.tasks[id], x.client, x.key) ==>
                id == x.phase.reply.row.id
  {
    hide Arises, FormOf, BookAfter, Serial, Sound, Mirrors, Reachable;
    ArisesSound(cfg, hash, s);
    SoundParts(cfg, hash, s);
    OneRow(BookAfter(s.log), s.p.db.tasks, (s.calls[c].client, s.calls[c].key));
    ToldTheTruth(cfg, hash, s, c);
    ToldTheTruth(cfg, hash, s, d);
    if s.calls[c].phase.reply.Created? { CreatedByOne(cfg, hash, s, c, d); }
  }

  /** Provided their hashes do not collide, two calls that were both answered with the task of their key
      asked for the same delivery. */
  lemma SameTaskSameRequest(cfg: Config, hash: Sub -> nat, s: System, c: Cid, d: Cid)
    requires Arises(cfg, hash, s) && c in s.calls && d in s.calls && c != d
    requires s.calls[c].client == s.calls[d].client && s.calls[c].key == s.calls[d].key
    requires s.calls[c].phase.Answered? && (s.calls[c].phase.reply.Created? || s.calls[c].phase.reply.Existing?)
    requires s.calls[d].phase.Answered? && (s.calls[d].phase.reply.Created? || s.calls[d].phase.reply.Existing?)
    requires hash(s.calls[c].form) == hash(s.calls[d].form) ==> s.calls[c].form == s.calls[d].form
    ensures var a, b := s.calls[c].raw, s.calls[d].raw;
            && a.target == b.target && a.mode == b.mode
            && SameMeaning(a.request.(verb := Upper(a.request.verb)), b.request.(verb := Upper(b.request.verb)))
  {
    OneTaskPerKey(cfg, hash, s, c, d);
    ArisesSound(cfg, hash, s);
    hide Arises, FormOf, BookAfter, Serial, Reachable, Mirrors, SameMeaning, Upper;
    assert CallOk(hash, c, s.calls[c], s.log) && CallOk(hash, d, s.calls[d], s.log);
    SameFormIff(s.calls[c].key, s.calls[c].raw, s.calls[d].key, s.calls[d].raw);
  }

  lemma {:induction false} EntryWasPut(log: seq<Op>, k: (string, string)) returns (i: nat)
    requires Serial(log) && k in BookAfter(log)
    ensures i < |log| && (log[i].client, log[i].key) == k && log[i].answer == New(BookAfter(log)[k].id)
          && log[i].hash == BookAfter(log)[k].hash
    decreases |log|
  {
    var n := |log| - 1;
    var before := log[..n];
    if k in BookAfter(before) {
      assert Fits(BookAfter(log[..n]), log[n]);
      assert forall j :: 0 <= j < n ==> before[..j] == log[..j];
      i := EntryWasPut(before, k);
    } else {
      i := n;
    }
  }

  /** Call c made the row t: it asked for it and saw `created`, unless its reply was lost. */
  ghost predicate Made(hash: Sub -> nat, x: Call, t: Task, id: Id) {
    && SameKey(t, x.client, x.key) && t.hash == hash(x.form) && FormOf(x.key, x.raw) == Some(x.form)
    && (x.phase == Aborted || (x.phase.Answered? && x.phase.reply.Created? && x.phase.reply.row.id == id))
  }

  lemma CreatorOf(hash: Sub -> nat, calls: map<Cid, Call>, log: seq<Op>, i: nat, t: Task)
    requires CallsOk(hash, calls, log) && LogOk(hash, calls, log) && i < |log| && log[i].answer.New?
    requires SameKey(t, log[i].client, log[i].key) && t.hash == log[i].hash
    ensures log[i].call in calls && Made(hash, calls[log[i].call], t, log[i].answer.id)
  {
    hide FormOf, BookAfter;
    var c := log[i].call;
    var x := calls[c];
    assert CallOk(hash, c, x, log);
    if x.phase.Answered? && AnswerOf(x.phase.reply).Some? {
      var j :| 0 <= j < |log| && log[j] == Op(c, x.client, x.key, hash(x.form), AnswerOf(x.phase.reply).value);
      assert j == i;
    }
  }

  /** No task without a submission: every row comes from a call that asked for it. */
  lemma EveryTaskHasItsCall(cfg: Config, hash: Sub -> nat, s: System, id: Id)
    requires Arises(cfg, hash, s) && id in s.p.db.tasks
    ensures exists c :: c in s.calls && Made(hash, s.calls[c], s.p.db.tasks[id], id)
  {
    ArisesSound(cfg, hash, s);
    hide Arises, Reachable, Serial, BookAfter, Made, CallsOk, LogOk;
    var t := s.p.db.tasks[id];
    var i := EntryWasPut(s.log, (t.client, t.key));
    CreatorOf(hash, s.calls, s.log, i, t);
  }

  lemma PlayMore(cfg: Config, hash: Sub -> nat, s: System, t: Turn, rest: seq<Turn>)
    requires Able(cfg, s, t.now, t.act) && Possible(cfg, hash, Perform(cfg, hash, s, t.now, t.act), rest)
    ensures Possible(cfg, hash, s, [t] + rest)
    ensures Play(cfg, hash, s, [t] + rest) == Play(cfg, hash, Perform(cfg, hash, s, t.now, t.act), rest)
  {
    hide Able, Perform;
    assert ([t] + rest)[1..] == rest;
  }

  /** The plain course: a first call creates the row, and a repetition of it, however it spells the same
      request, gets that row back. */
  lemma RepeatReturnsTheSame(cfg: Config, hash: Sub -> nat, s: System, now: Time, key: string, raw: Sub, again: Sub,
      id: Id, revision: nat)
    returns (turns: seq<Turn>)
    requires Start(s) && FormOf(key, raw).Some? && FormOf(key, again) == FormOf(key, raw)
          && (revision, raw.target) in cfg
    ensures Possible(cfg, hash, s, turns)
    ensures var z := Play(cfg, hash, s, turns);
            && 0 in z.calls && z.calls[0].phase.Answered? && z.calls[0].phase.reply.Created?
                && z.calls[0].phase.reply.row.id == id
            && 1 in z.calls && z.calls[1].phase == Answered(Existing(z.calls[0].phase.reply.row))
            && z.calls[0].raw == raw && z.calls[1].raw == again
  {
    hide FormOf;
    var t1, t2, t3 := Turn(now, Arrive(0, "", key, raw)), Turn(now, Look(0)),
        Turn(now, Insert(0, id, revision, now, false));
    var t4, t5 := Turn(now, Arrive(1, "", key, again)), Turn(now, Look(1));
    var s1 := Perform(cfg, hash, s, now, t1.act);
    assert In(s1, 0, Called);
    var s2 := Perform(cfg, hash, s1, now, t2.act);
    assert In(s2, 0, Unseen) && s2.p == s.p;
    var s3 := Perform(cfg, hash, s2, now, t3.act);
    var row := s3.p.db.tasks[id];
    assert s3.p.db.tasks == map[id := row] && row.id == id && In(s3, 0, Answered(Created(row)));
    var s4 := Perform(cfg, hash, s3, now, t4.act);
    var s5 := Perform(cfg, hash, s4, now, t5.act);
    assert In(s5, 0, Answered(Created(row))) && In(s5, 1, Answered(Existing(row)));
    assert s5.calls[0].raw == raw && s5.calls[1].raw == again;
    assert Possible(cfg, hash, s5, []) && Play(cfg, hash, s5, []) == s5;
    hide Able, Perform, Possible, Play;
    PlayMore(cfg, hash, s4, t5, []);
    PlayMore(cfg, hash, s3, t4, [t5] + []);
    PlayMore(cfg, hash, s2, t3, [t4] + ([t5] + []));
    PlayMore(cfg, hash, s1, t2, [t3] + ([t4] + ([t5] + [])));
    PlayMore(cfg, hash, s, t1, [t2] + ([t3] + ([t4] + ([t5] + []))));
    turns := [t1] + ([t2] + ([t3] + ([t4] + ([t5] + []))));
  }

  /** A submission of the body "A" as text, and one that spells it in non-canonical base64. */
  function Plain(target: string): Sub { Sub(target, "", Request("post", "/", map[], map[], "", "A")) }

  function Spelled(target: string): Sub { Sub(target, "", Request("POST", "/", map[], map[], "base64", "QR\n==")) }

  lemma SpellingsHaveOneForm(target: string)
    ensures FormOf("k", Plain(target)).Some? && FormOf("k", Spelled(target)) == FormOf("k", Plain(target))
  {
    var a, b := Request("POST", "/", map[], map[], "", "A"), Spelled(target).request;
    KeyAndVerb();
    SameAndAcceptable(a, b);
    hide Acceptable, Normal, SameMeaning, ValidKey, Upper;
    NormalIsCanonical(a, b);
    assert Plain(target).request.(verb := "POST") == a && b.(verb := "POST") == b;
  }

  lemma KeyAndVerb()
    ensures ValidKey("k") && Upper("post") == "POST" && Upper("POST") == "POST"
  {
    assert !ContainsAny("k", "\r\n\0");
  }

  lemma SameAndAcceptable(a: Request, b: Request)
    requires a == Request("POST", "/", map[], map[], "", "A")
          && b == Request("POST", "/", map[], map[], "base64", "QR\n==")
    ensures Acceptable(a) && Acceptable(b) && SameMeaning(a, b)
  {
    PlainBodies();
    assert Body(a) == Some("A") && Body(b) == Some("A") by { hide Base64.Decode, Utf8.Valid; }
    hide Body, Acceptable;
    PlainRequestIsAcceptable(a);
    PlainRequestIsAcceptable(b);
  }

  lemma PlainBodies()
    ensures Utf8.Valid("A") && Base64.Decode("QR\n==") == Some("A")
  {
    assert "A"[1..] == "";
    Base64.SpellingsAreNotUnique();
    Base64.LineBreaksAreIgnored("QR", "==", "\n");
    assert "QR" + "\n" + "==" == "QR\n==" && "QR" + "==" == "QR==";
  }

  /** Two clients' worth of spelling, one row: the course above happens. */
  lemma RepeatHappens(cfg: Config, hash: Sub -> nat, s: System, now: Time, target: string, id: Id, revision: nat)
    returns (turns: seq<Turn>)
    requires Start(s) && (revision, target) in cfg
    ensures Possible(cfg, hash, s, turns)
    ensures var z := Play(cfg, hash, s, turns);
            && 0 in z.calls && z.calls[0].raw == Plain(target) && z.calls[0].phase.Answered?
                && z.calls[0].phase.reply.Created?
            && 1 in z.calls && z.calls[1].raw == Spelled(target)
                && z.calls[1].phase == Answered(Existing(z.calls[0].phase.reply.row))
  {
    hide FormOf;
    SpellingsHaveOneForm(target);
    turns := RepeatReturnsTheSame(cfg, hash, s, now, "k", Plain(target), Spelled(target), id, revision);
  }
}
