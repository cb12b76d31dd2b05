/** `Prompt1Handler`: the daily brief of one user, and the pass over every
    active user in waves of a fixed size. */
module DailyPrompt {
  import opened Wrappers
  import opened Documents
  import opened Strings
  import opened VertexAI
  import opened FirestoreService

  /** The brief template and the model that answers it. */
  datatype BriefSource = BriefSource(model: TextModel, template: string)

  /** The clock readings a run uses: the day the template shows, the ISO
      timestamp stored as `fecha` and the server timestamp. */
  datatype Clock = Clock(today: Date, stamp: string, now: int)

  /** The brief `process_single_user` would store for `uid`: none when the
      user data cannot be read or is empty, or when the brief is empty. */
  function DailyBrief(p: Profiles, down: set<Collection>, src: BriefSource, today: Date, uid: string): (r: Option<string>)
    ensures r.Some? ==> r.value != ""
    ensures r.Some? ==> Users !in down && uid in p.users
  {
    match ReadContext(p, down, uid)
    case Failure(_) => None
    case Success(ctx) =>
      if ctx == map[] then None
      else
        var brief := Generate(src.model, Brief, src.template, ctx, today);
        if brief == "" then None else Some(brief)
  }

  /** Whether `process_single_user` returns `True`: there is a brief and the
      record can be written. It depends on the user alone, not on the
      records other users have created. */
  predicate Succeeds(p: Profiles, down: set<Collection>, src: BriefSource, today: Date, uid: string) {
    DailyBrief(p, down, src, today, uid).Some? && Retos !in down
  }

  /** A user without a `users` document never gets a brief. */
  lemma UnknownUserFails(p: Profiles, down: set<Collection>, src: BriefSource, today: Date, uid: string)
    requires uid !in p.users
    ensures !Succeeds(p, down, src, today, uid)
  {
  }

  /** When the model answers with text, the brief is that text stripped. */
  lemma BriefIsModelAnswer(p: Profiles, down: set<Collection>, src: BriefSource, today: Date, uid: string)
    requires Users !in down && InfoUser !in down && Avances !in down && uid in p.users
    requires src.model(Render(src.template, AssembleContext(p, uid), today)).Ok?
    ensures DailyBrief(p, down, src, today, uid).Some? <==>
      Strip(src.model(Render(src.template, AssembleContext(p, uid), today)).value) != ""
    ensures DailyBrief(p, down, src, today, uid).Some? ==>
      DailyBrief(p, down, src, today, uid).value == Strip(src.model(Render(src.template, AssembleContext(p, uid), today)).value)
  {
    ContextEmptyIffNoUser(p, uid);
  }

  /** `process_single_user`: read the user data, generate the brief, create
      one record holding it. Any failure, including an unreachable record
      collection, gives `false` and leaves the records as they were. */
  method ProcessSingleUser(store: RecordStore, src: BriefSource, clock: Clock, uid: string) returns (ok: bool)
    requires store.Valid()
    modifies store`retos, store`nextId
    ensures store.Valid()
    ensures ok <==> Succeeds(store.profiles, store.down, src, clock.today, uid)
    ensures ok ==>
      && old(store.nextId) !in old(store.retos)
      && store.retos == old(store.retos)[old(store.nextId) :=
           NewRecord(uid, DailyBrief(store.profiles, store.down, src, clock.today, uid).value, clock.stamp, clock.now)]
      && store.nextId == old(store.nextId) + 1
    ensures !ok ==> store.retos == old(store.retos) && store.nextId == old(store.nextId)
  {
    var user := store.GetUserData(uid);
    if user.Failure? || user.value == map[] {
      return false;
    }
    var brief := Generate(src.model, Brief, src.template, user.value, clock.today);
    if brief == "" {
      return false;
    }
    var id := store.CreateRecord(uid, brief, clock.stamp, clock.now);
    return id.Success?;
  }

  /** The consecutive slices of `batch` users, in list order. */
  function Waves<T>(users: seq<T>, batch: nat): (r: seq<seq<T>>)
    requires batch > 0
    ensures forall w :: 0 <= w < |r| ==> 0 < |r[w]| <= batch
    decreases |users|
  {
    if users == [] then []
    else if |users| <= batch then [users]
    else [users[..batch]] + Waves(users[batch..], batch)
  }

  /** The concatenation of a list of lists. */
  function Flatten<T>(ws: seq<seq<T>>): seq<T> {
    if ws == [] then [] else ws[0] + Flatten(ws[1..])
  }

  /** The waves put together are the user list: every user is in exactly one
      wave, in order. */
  lemma {:induction false} WavesPartition<T>(users: seq<T>, batch: nat)
    requires batch > 0
    ensures Flatten(Waves(users, batch)) == users
    decreases |users|
  {
    if users != [] && |users| > batch {
      var ws := Waves(users, batch);
      WavesPartition(users[batch..], batch);
      assert ws[1..] == Waves(users[batch..], batch);
      assert users == users[..batch] + users[batch..];
    }
  }

  /** There are ceil(n / batch) waves. */
  lemma {:induction false} WaveCount<T>(users: seq<T>, batch: nat)
    requires batch > 0
    ensures |Waves(users, batch)| == (|users| + batch - 1) / batch
    decreases |users|
  {
    if users == [] {
    } else if |users| <= batch {
      DivUnique(|users| + batch - 1, batch, 1, |users| - 1);
    } else {
      var rest := users[batch..];
      WaveCount(rest, batch);
      assert Waves(users, batch) == [users[..batch]] + Waves(rest, batch);
      DivShift(|rest| + batch - 1, batch);
    }
  }

  /** Every wave but the last holds exactly `batch` users. */
  lemma {:induction false} WavesFull<T>(users: seq<T>, batch: nat)
    requires batch > 0
    ensures forall w :: 0 <= w < |Waves(users, batch)| - 1 ==> |Waves(users, batch)[w]| == batch
    decreases |users|
  {
    if users != [] && |users| > batch {
      var rest := users[batch..];
      WavesFull(rest, batch);
      assert Waves(users, batch) == [users[..batch]] + Waves(rest, batch);
    }
  }

  /** Wave `w` holds users `w*batch` up to `(w+1)*batch`, or up to the end
      of the list. */
  lemma {:induction false} WaveAt<T>(users: seq<T>, batch: nat, w: nat)
    requires batch > 0 && w < |Waves(users, batch)|
    ensures w * batch < |users|
    ensures Waves(users, batch)[w] == users[w * batch..Min((w + 1) * batch, |users|)]
    decreases |users|
  {
    if |users| > batch && w > 0 {
      var rest := users[batch..];
      assert Waves(users, batch) == [users[..batch]] + Waves(rest, batch);
      WaveAt(rest, batch, w - 1);
      SubMul(w, 1, batch);
      SubMul(w + 1, 1, batch);
    }
  }

  lemma MulAtLeast(k: int, b: int)
    requires k >= 1 && b > 0
    ensures k * b >= b
  {
  }

  lemma SubMul(q: int, p: int, b: int)
    ensures (q - p) * b == q * b - p * b
  {
  }

  /** Euclidean division has one quotient. */
  lemma DivUnique(m: int, b: int, q: int, r: int)
    requires b > 0 && 0 <= r < b && m == q * b + r
    ensures m / b == q
  {
    var q2 := m / b;
    if q2 < q {
      SubMul(q, q2, b);
      MulAtLeast(q - q2, b);
    } else if q2 > q {
      SubMul(q2, q, b);
      MulAtLeast(q2 - q, b);
    }
  }

  /** Adding the divisor adds one to the quotient. */
  lemma DivShift(n: int, b: int)
    requires n >= 0 && b > 0
    ensures (n + b) / b == n / b + 1
  {
    DivUnique(n + b, b, n / b + 1, n % b);
  }

  /** The number of offsets `range(0, n, batch)` visits. */
  function Rounds(n: int, batch: nat): nat
    requires batch > 0
    decreases n
  {
    if n <= 0 then 0 else 1 + Rounds(n - batch, batch)
  }

  /** One more offset of `range(0, n, batch)`: one round fewer to go. */
  lemma RoundStep(n: nat, batch: nat, start: nat, w: nat)
    requires batch > 0 && start < n && w + Rounds(n - start, batch) == Rounds(n, batch)
    ensures w + 1 + Rounds(n - (start + batch), batch) == Rounds(n, batch)
    ensures (w + 1) * batch == w * batch + batch
  {
    SubMul(w + 1, 1, batch);
  }

  /** `range(0, n, batch)` visits ceil(n / batch) offsets, as many as there
      are waves. */
  lemma {:induction false} RoundsCeiling(n: nat, batch: nat)
    requires batch > 0
    ensures Rounds(n, batch) == (n + batch - 1) / batch
    decreases n
  {
    if n == 0 {
      DivUnique(batch - 1, batch, 0, batch - 1);
    } else if n <= batch {
      DivUnique(n + batch - 1, batch, 1, n - 1);
    } else {
      RoundsCeiling(n - batch, batch);
      DivShift(n - 1, batch);
    }
  }

  /** The concatenation of two lists of waves is the concatenation of their
      users. */
  lemma {:induction false} FlattenAppend<T>(a: seq<seq<T>>, b: seq<seq<T>>)
    ensures Flatten(a + b) == Flatten(a) + Flatten(b)
  {
    if a == [] {
      assert a + b == b;
    } else {
      assert (a + b)[1..] == a[1..] + b;
      FlattenAppend(a[1..], b);
    }
  }

  /** The first `w + 1` waves hold the users of the first `w` and then those
      of wave `w`. */
  lemma FlattenSnoc<T>(ws: seq<seq<T>>, w: nat)
    requires w < |ws|
    ensures Flatten(ws[..w + 1]) == Flatten(ws[..w]) + ws[w]
  {
    assert ws[..w + 1] == ws[..w] + [ws[w]];
    FlattenAppend(ws[..w], [ws[w]]);
    assert [ws[w]][1..] == [];
  }

  /** The slice `users[start:start + batch]` the loop takes at offset
      `start = w * batch` is wave `w`, so after it the users handled are the
      first `w + 1` waves. */
  lemma WaveStep<T>(users: seq<T>, batch: nat, w: nat, start: nat)
    requires batch > 0 && start == w * batch && start < |users| && w < |Waves(users, batch)|
    requires users[..start] == Flatten(Waves(users, batch)[..w])
    ensures users[..Min(start + batch, |users|)] == Flatten(Waves(users, batch)[..w + 1])
  {
    WaveAt(users, batch, w);
    SubMul(w + 1, 1, batch);
    FlattenSnoc(Waves(users, batch), w);
    assert users[..Min(start + batch, |users|)] == users[..start] + users[start..Min(start + batch, |users|)];
  }

  /** The record `process_single_user` adds for `uid`, if it adds one. */
  function Made(p: Profiles, down: set<Collection>, src: BriefSource, clock: Clock, uid: string): Option<Doc> {
    if Succeeds(p, down, src, clock.today, uid)
    then Some(NewRecord(uid, DailyBrief(p, down, src, clock.today, uid).value, clock.stamp, clock.now))
    else None
  }

  /** `Made` for every user. */
  function MadeBy(p: Profiles, down: set<Collection>, src: BriefSource, clock: Clock): string -> Option<Doc> {
    u => Made(p, down, src, clock, u)
  }

  /** The number of users of `users` for whom `made` yields a record. */
  function CountMade(users: seq<string>, made: string -> Option<Doc>): (n: nat)
    ensures n <= |users|
  {
    if users == [] then 0
    else CountMade(users[..|users| - 1], made) + (if made(users[|users| - 1]).Some? then 1 else 0)
  }

  /** The records a pass over `users` adds when `made` says what each user
      yields, numbered from `from` in the order they are made. */
  function Created(users: seq<string>, made: string -> Option<Doc>, from: nat): map<RecordId, Doc> {
    if users == [] then map[]
    else
      var init, u := users[..|users| - 1], users[|users| - 1];
      if made(u).Some? then Created(init, made, from)[from + CountMade(init, made) := made(u).value]
      else Created(init, made, from)
  }

  /** One more user: their record, if any, goes under the next id. */
  lemma MadeStep(users: seq<string>, made: string -> Option<Doc>, from: nat, j: nat)
    requires j < |users|
    ensures CountMade(users[..j + 1], made) == CountMade(users[..j], made) + (if made(users[j]).Some? then 1 else 0)
    ensures Created(users[..j + 1], made, from) ==
      if made(users[j]).Some? then Created(users[..j], made, from)[from + CountMade(users[..j], made) := made(users[j]).value]
      else Created(users[..j], made, from)
  {
    assert users[..j + 1][..j] == users[..j];
  }

  /** The step the wave loop takes: with `m` the records so far and `k` the
      next id, one more user leaves `m` as it is or adds their record under
      `k`. */
  lemma CreatedStep(base: map<RecordId, Doc>, users: seq<string>, made: string -> Option<Doc>, from: nat, j: nat,
                    k: nat, m: map<RecordId, Doc>)
    requires j < |users| && k == from + CountMade(users[..j], made) && m == base + Created(users[..j], made, from)
    ensures made(users[j]).Some? ==>
      && m[k := made(users[j]).value] == base + Created(users[..j + 1], made, from)
      && CountMade(users[..j + 1], made) == CountMade(users[..j], made) + 1
    ensures made(users[j]).None? ==>
      && m == base + Created(users[..j + 1], made, from)
      && CountMade(users[..j + 1], made) == CountMade(users[..j], made)
  {
    MadeStep(users, made, from, j);
    if made(users[j]).Some? {
      UnionUpdate(base, Created(users[..j], made, from), k, made(users[j]).value);
    }
  }

  lemma UnionUpdate<K, V>(base: map<K, V>, c: map<K, V>, k: K, v: V)
    ensures (base + c)[k := v] == base + c[k := v]
  {
  }

  /** The records take exactly the ids `from` up to `from` plus their
      number: none is skipped, none lies outside. */
  lemma {:induction false} CreatedKeys(users: seq<string>, made: string -> Option<Doc>, from: nat)
    ensures forall id :: id in Created(users, made, from) <==> from <= id < from + CountMade(users, made)
  {
    if users != [] {
      CreatedKeys(users[..|users| - 1], made, from);
    }
  }

  /** A user who yields a record counts: fewer records come before theirs
      than in the whole pass. */
  lemma {:induction false} CountMadePrefix(users: seq<string>, made: string -> Option<Doc>, j: nat)
    requires j < |users| && made(users[j]).Some?
    ensures CountMade(users[..j], made) < CountMade(users, made)
    decreases |users|
  {
    var init := users[..|users| - 1];
    if j == |users| - 1 {
      assert users[..j] == init;
    } else {
      assert init[..j] == users[..j] && init[j] == users[j];
      CountMadePrefix(init, made, j);
    }
  }

  /** Each user who yields a record has it under `from` plus the number of
      records before theirs. */
  lemma {:induction false} CreatedAt(users: seq<string>, made: string -> Option<Doc>, from: nat, j: nat, k: nat)
    requires j < |users| && made(users[j]).Some? && k == from + CountMade(users[..j], made)
    ensures k in Created(users, made, from) && Created(users, made, from)[k] == made(users[j]).value
    decreases |users|
  {
    var init := users[..|users| - 1];
    if j == |users| - 1 {
      assert users[..j] == init;
    } else {
      assert init[..j] == users[..j] && init[j] == users[j];
      CreatedAt(init, made, from, j, k);
      CountMadePrefix(init, made, j);
    }
  }

  /** Over a list without repeats the count is the number of users who yield
      a record, whatever the order. */
  lemma {:induction false} CountMadeAsSet(xs: seq<string>, made: string -> Option<Doc>)
    requires forall i, j :: 0 <= i < j < |xs| ==> xs[i] != xs[j]
    ensures CountMade(xs, made) == |set u | u in xs && made(u).Some?|
  {
    if xs == [] {
      assert (set u | u in xs && made(u).Some?) == {};
    } else {
      var init, x := xs[..|xs| - 1], xs[|xs| - 1];
      CountMadeAsSet(init, made);
      var a := set u | u in init && made(u).Some?;
      var b := set u | u in xs && made(u).Some?;
      assert x !in init;
      assert xs == init + [x];
      if made(x).Some? {
        assert b == a + {x};
      } else {
        assert b == a;
      }
    }
  }

  /** The number of users of `users` for whom `process_single_user` succeeds. */
  function Successes(p: Profiles, down: set<Collection>, src: BriefSource, clock: Clock, users: seq<string>): nat {
    CountMade(users, MadeBy(p, down, src, clock))
  }

  /** One more user adds one success exactly when that user succeeds. */
  lemma SuccessesStep(p: Profiles, down: set<Collection>, src: BriefSource, clock: Clock, users: seq<string>, u: string)
    ensures Successes(p, down, src, clock, users + [u])
         == Successes(p, down, src, clock, users) + (if Succeeds(p, down, src, clock.today, u) then 1 else 0)
  {
    assert (users + [u])[..|users|] == users;
    assert MadeBy(p, down, src, clock)(u) == Made(p, down, src, clock, u);
  }

  /** With every record write failing, nobody succeeds. */
  lemma {:induction false} NoSuccessWhileRecordsDown(p: Profiles, down: set<Collection>, src: BriefSource, clock: Clock, users: seq<string>)
    requires Retos in down
    ensures Successes(p, down, src, clock, users) == 0
  {
    if users != [] {
      var init, u := users[..|users| - 1], users[|users| - 1];
      NoSuccessWhileRecordsDown(p, down, src, clock, init);
      assert users == init + [u];
      SuccessesStep(p, down, src, clock, init, u);
    }
  }

  /** The users of the `users` collection for whom `process_single_user`
      succeeds. */
  function Succeeding(p: Profiles, down: set<Collection>, src: BriefSource, today: Date): set<string> {
    set u | u in p.users && Succeeds(p, down, src, today, u)
  }

  /** Over a listing of the `users` collection, the successes are the users
      who succeed, each counted once, whatever the order of the listing. */
  lemma {:induction false} SuccessesAsSet(p: Profiles, down: set<Collection>, src: BriefSource, clock: Clock, order: seq<string>)
    requires Lists(order, p.users.Keys)
    ensures Successes(p, down, src, clock, order) == |Succeeding(p, down, src, clock.today)|
  {
    var made := MadeBy(p, down, src, clock);
    CountMadeAsSet(order, made);
    assert (set u | u in order && made(u).Some?) == Succeeding(p, down, src, clock.today);
  }

  /** The records a pass over `users` creates when the first free id is
      `from`. */
  function NewRecords(p: Profiles, down: set<Collection>, src: BriefSource, clock: Clock,
                      users: seq<string>, from: nat): map<RecordId, Doc>
  {
    Created(users, MadeBy(p, down, src, clock), from)
  }

  /** The new records take exactly the ids `from` up to `from` plus the
      number of successes: none is skipped, none lies outside. */
  lemma {:induction false} NewRecordsKeys(p: Profiles, down: set<Collection>, src: BriefSource, clock: Clock,
                       users: seq<string>, from: nat)
    ensures forall id :: id in NewRecords(p, down, src, clock, users, from) <==>
      from <= id < from + Successes(p, down, src, clock, users)
  {
    CreatedKeys(users, MadeBy(p, down, src, clock), from);
  }

  /** What `Made` gives for a user who succeeds. */
  lemma MadeSome(p: Profiles, down: set<Collection>, src: BriefSource, clock: Clock, uid: string)
    requires Succeeds(p, down, src, clock.today, uid)
    ensures MadeBy(p, down, src, clock)(uid)
         == Some(NewRecord(uid, DailyBrief(p, down, src, clock.today, uid).value, clock.stamp, clock.now))
  {
  }

  lemma {:induction false} NewRecordAt(p: Profiles, down: set<Collection>, src: BriefSource, clock: Clock,
                                       users: seq<string>, from: nat, j: nat, d: Doc)
    requires j < |users| && MadeBy(p, down, src, clock)(users[j]) == Some(d)
    ensures from + Successes(p, down, src, clock, users[..j]) in NewRecords(p, down, src, clock, users, from)
    ensures NewRecords(p, down, src, clock, users, from)[from + Successes(p, down, src, clock, users[..j])] == d
  {
    CreatedAt(users, MadeBy(p, down, src, clock), from, j, from + Successes(p, down, src, clock, users[..j]));
  }

  /** The k-th user who succeeds (from 0) has their own record under
      `from + k`, holding their brief. */
  lemma NewRecordsAt(p: Profiles, down: set<Collection>, src: BriefSource, clock: Clock,
                     users: seq<string>, from: nat, j: nat)
    requires j < |users| && Succeeds(p, down, src, clock.today, users[j])
    ensures from + Successes(p, down, src, clock, users[..j]) in NewRecords(p, down, src, clock, users, from)
    ensures NewRecords(p, down, src, clock, users, from)[from + Successes(p, down, src, clock, users[..j])]
         == NewRecord(users[j], DailyBrief(p, down, src, clock.today, users[j]).value, clock.stamp, clock.now)
  {
    MadeSome(p, down, src, clock, users[j]);
    NewRecordAt(p, down, src, clock, users, from, j,
                NewRecord(users[j], DailyBrief(p, down, src, clock.today, users[j]).value, clock.stamp, clock.now));
  }

  /** The counts `process_all_users` returns. */
  datatype Tally = Tally(total: nat, successful: nat, failed: nat)

  const ZeroStep := "range() arg 3 must not be zero"

  /** `order` lists every key of `keys` once. */
  ghost predicate Lists(order: seq<string>, keys: set<string>) {
    && (forall u :: u in order <==> u in keys)
    && (forall i, j :: 0 <= i < j < |order| ==> order[i] != order[j])
  }

  /** What a pass over all users promises, `order` being the order in which
      the `users` collection listed them and `before`/`from` and
      `after`/`next` the records and the first free id before and after:
      an unreachable `users` collection fails; a zero wave size with users
      to run fails as `range` does; anything else succeeds and counts every
      user. A positive wave size counts as successful exactly the users who
      succeed and adds exactly their records, in list order; otherwise the
      records are as they were. */
  ghost predicate AllUsersPass(p: Profiles, down: set<Collection>, src: BriefSource, clock: Clock, batch: int,
                               order: seq<string>, before: map<RecordId, Doc>, from: nat,
                               after: map<RecordId, Doc>, next: nat, r: Result<Tally>)
  {
    && (Users in down ==> r == Failure(Unavailable(Users)))
    && (Users !in down ==> Lists(order, p.users.Keys))
    && (Users !in down && |p.users| > 0 && batch == 0 ==> r == Failure(ZeroStep))
    && (Users !in down && !(|p.users| > 0 && batch == 0) ==> r.Success?)
    && (r.Success? ==> r.value.total == |p.users|)
    && (r.Success? && (r.value.total == 0 || batch < 0) ==> r.value == Tally(r.value.total, 0, 0))
    && (r.Success? && batch > 0 ==>
          && r.value.successful == |Succeeding(p, down, src, clock.today)|
          && r.value.successful + r.value.failed == r.value.total
          && after == before + NewRecords(p, down, src, clock, order, from)
          && next == from + r.value.successful)
    && (r.Failure? || batch <= 0 ==> after == before && next == from)
  }

  /** `process_all_users`: list the active users and run the single-user
      step on each, wave by wave, pausing between waves. `pauses` counts
      the pauses taken; `order` is the order of the listing. */
  method ProcessAllUsers(store: RecordStore, src: BriefSource, clock: Clock, batch: int)
    returns (r: Result<Tally>, pauses: nat, ghost order: seq<string>)
    requires store.Valid()
    modifies store`retos, store`nextId
    ensures store.Valid()
    ensures AllUsersPass(store.profiles, store.down, src, clock, batch, order,
                         old(store.retos), old(store.nextId), store.retos, store.nextId, r)
    ensures r.Success? && r.value.total > 0 && batch > 0 ==>
      pauses == |Waves(order, batch)| - 1 && pauses == (|order| + batch - 1) / batch - 1 && |order| == r.value.total
    ensures r.Failure? || r.value.total == 0 || batch <= 0 ==> pauses == 0
    ensures forall id :: id in old(store.retos) ==> id in store.retos && store.retos[id] == old(store.retos)[id]
    ensures forall id :: id in store.retos && id !in old(store.retos) ==> old(store.nextId) <= id < store.nextId
  {
    pauses, order := 0, [];
    var listed := store.ListActiveUsers();
    if listed.Failure? {
      r := Failure(listed.error);
      UsersDownFails(store.profiles, store.down, src, clock, batch, store.retos, store.nextId);
      return;
    }
    order := listed.value;
    r, pauses := RunListed(store, src, clock, batch, listed.value);
  }

  /** An unreachable `users` collection fails the pass and leaves the
      records as they were. */
  lemma UsersDownFails(p: Profiles, down: set<Collection>, src: BriefSource, clock: Clock, batch: int,
                       retos: map<RecordId, Doc>, next: nat)
    requires Users in down
    ensures AllUsersPass(p, down, src, clock, batch, [], retos, next, retos, next, Failure(Unavailable(Users)))
  {
  }

  /** The part of `process_all_users` after the listing, over the listed
      users `users`. */
  method RunListed(store: RecordStore, src: BriefSource, clock: Clock, batch: int, users: seq<string>)
    returns (r: Result<Tally>, pauses: nat)
    requires store.Valid() && Users !in store.down && Lists(users, store.profiles.users.Keys)
    modifies store`retos, store`nextId
    ensures store.Valid()
    ensures AllUsersPass(store.profiles, store.down, src, clock, batch, users,
                         old(store.retos), old(store.nextId), store.retos, store.nextId, r)
    ensures r.Success? && r.value.total > 0 && batch > 0 ==>
      pauses == |Waves(users, batch)| - 1 && pauses == (|users| + batch - 1) / batch - 1 && |users| == r.value.total
    ensures r.Failure? || r.value.total == 0 || batch <= 0 ==> pauses == 0
    ensures forall id :: id in old(store.retos) ==> id in store.retos && store.retos[id] == old(store.retos)[id]
    ensures forall id :: id in store.retos && id !in old(store.retos) ==> old(store.nextId) <= id < store.nextId
  {
    pauses := 0;
    DistinctCount(users, store.profiles.users.Keys);
    SuccessesAsSet(store.profiles, store.down, src, clock, users);
    if users == [] {
      r := Success(Tally(0, 0, 0));
      return;
    }
    if batch == 0 {
      r := Failure(ZeroStep);
      return;
    }
    if batch < 0 {
      r := Success(Tally(|users|, 0, 0));
      return;
    }
    var successful, failed;
    successful, failed, pauses := RunWaves(store, src, clock, users, batch);
    NewRecordsKeys(store.profiles, store.down, src, clock, users, old(store.nextId));
    r := Success(Tally(|users|, successful, failed));
  }

  /** The `for i in range(0, len(user_ids), batch_size)` loop: each wave's
      users in turn, then a pause when users remain. */
  method RunWaves(store: RecordStore, src: BriefSource, clock: Clock, users: seq<string>, batch: nat)
    returns (successful: nat, failed: nat, pauses: nat)
    requires store.Valid() && batch > 0 && users != []
    modifies store`retos, store`nextId
    ensures store.Valid()
    ensures successful == Successes(store.profiles, store.down, src, clock, users)
    ensures successful + failed == |users|
    ensures pauses == |Waves(users, batch)| - 1
    ensures pauses == (|users| + batch - 1) / batch - 1
    ensures store.retos == old(store.retos) + NewRecords(store.profiles, store.down, src, clock, users, old(store.nextId))
    ensures store.nextId == old(store.nextId) + successful
  {
    var n := |users|;
    var profiles, down := store.profiles, store.down;
    ghost var made := MadeBy(profiles, down, src, clock);
    ghost var base, from := store.retos, store.nextId;
    ghost var waves := Waves(users, batch);
    WaveCount(users, batch);
    RoundsCeiling(n, batch);
    successful, failed, pauses := 0, 0, 0;
    var start, w := 0, 0;
    ghost var done := 0;
    assert store.retos == base + Created(users[..0], made, from);
    assert users[..0] == Flatten(waves[..0]);
    while start < n
      invariant done <= n && (start < n ==> done == start) && (start >= n ==> done == n)
      invariant start == w * batch
      invariant w + Rounds(n - start, batch) == Rounds(n, batch)
      invariant users[..done] == Flatten(waves[..w])
      invariant done == successful + failed
      invariant successful == CountMade(users[..done], made)
      invariant pauses == if start < n then w else w - 1
      invariant store.Valid()
      invariant store.nextId == from + successful
      invariant store.retos == base + Created(users[..done], made, from)
      decreases n - start
    {
      var stop := Min(start + batch, n);
      WaveStep(users, batch, w, start);
      successful, failed := RunWave(store, src, clock, users, start, stop, successful, failed, made, base, from);
      if start + batch < n {
        pauses := pauses + 1;
      }
      done := stop;
      RoundStep(n, batch, start, w);
      start := start + batch;
      w := w + 1;
    }
    assert users[..n] == users;
  }

  /** One wave: the single-user step on `users[start..stop]`, counting each
      result once, as successful when it is `true` and as failed otherwise;
      the records of the wave's successful users follow those of the users
      before it. */
  method RunWave(store: RecordStore, src: BriefSource, clock: Clock, users: seq<string>, start: nat, stop: nat,
                 successful0: nat, failed0: nat,
                 ghost made: string -> Option<Doc>, ghost base: map<RecordId, Doc>, ghost from: nat)
    returns (successful: nat, failed: nat)
    requires store.Valid() && start <= stop <= |users|
    requires forall u {:trigger Made(store.profiles, store.down, src, clock, u)} :: made(u) == Made(store.profiles, store.down, src, clock, u)
    requires start == successful0 + failed0
    requires successful0 == CountMade(users[..start], made)
    requires store.nextId == from + successful0
    requires store.retos == base + Created(users[..start], made, from)
    modifies store`retos, store`nextId
    ensures store.Valid()
    ensures stop == successful + failed
    ensures successful == CountMade(users[..stop], made)
    ensures store.nextId == from + successful
    ensures store.retos == base + Created(users[..stop], made, from)
  {
    successful, failed := successful0, failed0;
    var j := start;
    while j < stop
      invariant start <= j <= stop
      invariant j == successful + failed
      invariant successful == CountMade(users[..j], made)
      invariant store.Valid()
      invariant store.nextId == from + successful
      invariant store.retos == base + Created(users[..j], made, from)
    {
      CreatedStep(base, users, made, from, j, store.nextId, store.retos);
      var ok := CountedUser(store, src, clock, users[j], made);
      if ok {
        successful := successful + 1;
      } else {
        failed := failed + 1;
      }
      j := j + 1;
    }
  }

  /** The single-user step as the wave loop sees it: its result, and the
      record it adds under the next id exactly when it succeeds. */
  method CountedUser(store: RecordStore, src: BriefSource, clock: Clock, uid: string, ghost made: string -> Option<Doc>)
    returns (ok: bool)
    requires store.Valid()
    requires forall u {:trigger Made(store.profiles, store.down, src, clock, u)} :: made(u) == Made(store.profiles, store.down, src, clock, u)
    modifies store`retos, store`nextId
    ensures store.Valid()
    ensures ok == made(uid).Some?
    ensures ok ==> store.retos == old(store.retos)[old(store.nextId) := made(uid).value] && store.nextId == old(store.nextId) + 1
    ensures !ok ==> store.retos == old(store.retos) && store.nextId == old(store.nextId)
  {
    ok := ProcessSingleUser(store, src, clock, uid);
    assert made(uid) == Made(store.profiles, store.down, src, clock, uid);
  }

  /** A list of distinct keys that holds exactly the keys of a set is as long
      as the set is large. */
  lemma {:induction false} DistinctCount(xs: seq<string>, s: set<string>)
    requires forall u :: u in xs <==> u in s
    requires forall i, j :: 0 <= i < j < |xs| ==> xs[i] != xs[j]
    ensures |xs| == |s|
  {
    if xs != [] {
      var x := xs[|xs| - 1];
      var init := xs[..|xs| - 1];
      assert x !in init;
      forall u ensures u in init <==> u in s - {x} {
        if u in init {
          var i :| 0 <= i < |init| && init[i] == u;
          assert xs[i] == u;
        }
        if u in s - {x} {
          assert u in xs;
          var i :| 0 <= i < |xs| && xs[i] == u;
          assert i < |xs| - 1;
          assert init[i] == u;
        }
      }
      DistinctCount(init, s - {x});
    } else {
      assert forall u :: u !in s;
      assert s == {};
    }
  }

  /** What `handle_daily_prompt` ran. */
  datatype Run = Single(ok: bool) | All(tally: Tally)

  /** `handle_daily_prompt`: a non-empty user id runs the single-user step,
      anything else the pass over all users, whose exceptions propagate. */
  method HandleDailyPrompt(store: RecordStore, src: BriefSource, clock: Clock, batch: int, uid: Option<string>)
    returns (r: Result<Run>, ghost order: seq<string>)
    requires store.Valid()
    modifies store`retos, store`nextId
    ensures store.Valid()
    ensures uid.Some? && uid.value != "" ==>
      && r == Success(Single(Succeeds(store.profiles, store.down, src, clock.today, uid.value)))
      && (r.value.ok ==>
            && store.retos == old(store.retos)[old(store.nextId) :=
                 NewRecord(uid.value, DailyBrief(store.profiles, store.down, src, clock.today, uid.value).value, clock.stamp, clock.now)]
            && store.nextId == old(store.nextId) + 1)
      && (!r.value.ok ==> store.retos == old(store.retos) && store.nextId == old(store.nextId))
    ensures (uid.None? || uid.value == "") ==>
      && (r.Success? ==> r.value.All?)
      && AllUsersPass(store.profiles, store.down, src, clock, batch, order, old(store.retos), old(store.nextId),
                      store.retos, store.nextId, if r.Success? then Success(r.value.tally) else Failure(r.error))
  {
    order := [];
    if uid.Some? && uid.value != "" {
      var ok := ProcessSingleUser(store, src, clock, uid.value);
      return Success(Single(ok)), order;
    }
    var all, _, listed := ProcessAllUsers(store, src, clock, batch);
    order := listed;
    if all.Failure? {
      r := Failure(all.error);
    } else {
      r := Success(All(all.value));
    }
  }
}
