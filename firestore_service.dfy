/** The document store behind `FirestoreService`: the `users`, `infouser` and
    `avances` collections the pipeline only reads, and the `retosdiarios`
    collection of daily-challenge records it creates and patches. */
module FirestoreService {
  import opened Wrappers
  import opened Documents

  /** Identifier the store assigns to a new daily-challenge record. */
  type RecordId = nat

  datatype Collection = Users | InfoUser | Avances | Retos

  /** The message of the exception raised when a collection cannot be reached. */
  function Unavailable(c: Collection): string {
    match c
    case Users => "users collection unavailable"
    case InfoUser => "infouser collection unavailable"
    case Avances => "avances collection unavailable"
    case Retos => "retosdiarios collection unavailable"
  }

  /** The collections managed outside the pipeline: profiles by user id, extra
      profile data by user id, and the progress entries in collection order. */
  datatype Profiles = Profiles(users: map<string, Doc>, infouser: map<string, Doc>, avances: seq<Doc>)

  /** The number of progress entries the context carries. */
  const ProgressLimit: nat := 5

  /** The three fields written by the stages that follow the brief. */
  const StageFields: seq<string> := ["retodia", "retoimagen", "retopodcast"]

  // ---------------------------------------------------------------------------
  // Progress query: entries of one user, newest timestamp first, at most five.

  /** An entry the `order_by("timestamp")` query can see: one with a timestamp. */
  predicate Stamped(d: Doc) {
    "timestamp" in d && d["timestamp"].Num?
  }

  /** The timestamp of an entry the query can see (0 for any other). */
  function Stamp(d: Doc): int {
    if Stamped(d) then d["timestamp"].n else 0
  }

  /** The entries of `avances` whose `userid` is `uid` and that carry a timestamp, in collection order. */
  function UserProgress(avances: seq<Doc>, uid: string): (r: seq<Doc>)
    ensures forall d :: d in r ==> d in avances && Stamped(d) && Get(d, "userid", Num(0)) == Str(uid)
    ensures forall d :: d in avances && Stamped(d) && Get(d, "userid", Num(0)) == Str(uid) ==> d in r
  {
    if avances == [] then []
    else
      var rest := UserProgress(avances[1..], uid);
      var d := avances[0];
      assert forall e :: e in avances[1..] ==> e in avances;
      assert forall e :: e in avances ==> e == d || e in avances[1..];
      if Stamped(d) && Get(d, "userid", Num(0)) == Str(uid) then [d] + rest else rest
  }

  /** Newest first: timestamps never increase along the sequence. */
  predicate NewestFirst(s: seq<Doc>) {
    forall i, j :: 0 <= i < j < |s| ==> Stamp(s[j]) <= Stamp(s[i])
  }

  /** `d` placed before the first entry of `s` that is not newer than it. */
  function Insert(d: Doc, s: seq<Doc>): (r: seq<Doc>)
    ensures |r| == |s| + 1
    ensures multiset(r) == multiset(s) + multiset{d}
  {
    if s == [] || Stamp(s[0]) <= Stamp(d) then [d] + s
    else
      assert s == [s[0]] + s[1..];
      [s[0]] + Insert(d, s[1..])
  }

  /** Inserting an entry no newer than `b` among entries no newer than `b`
      leaves every entry no newer than `b`. */
  lemma {:induction false} InsertBounded(d: Doc, s: seq<Doc>, b: int)
    requires Stamp(d) <= b && forall i :: 0 <= i < |s| ==> Stamp(s[i]) <= b
    ensures forall i :: 0 <= i < |Insert(d, s)| ==> Stamp(Insert(d, s)[i]) <= b
  {
    if s == [] || Stamp(s[0]) <= Stamp(d) {
      var r := Insert(d, s);
      assert r == [d] + s;
      assert forall i :: 1 <= i < |r| ==> r[i] == s[i - 1];
    } else {
      assert forall i :: 0 <= i < |s| - 1 ==> s[1..][i] == s[i + 1];
      InsertBounded(d, s[1..], b);
      var t := Insert(d, s[1..]);
      var r := Insert(d, s);
      assert r == [s[0]] + t;
      forall i | 0 <= i < |r| ensures Stamp(r[i]) <= b {
        if i > 0 {
          assert r[i] == t[i - 1];
        }
      }
    }
  }

  /** An entry at least as new as every entry of an ordered list can go first. */
  lemma ConsOrdered(x: Doc, t: seq<Doc>)
    requires NewestFirst(t)
    requires forall i :: 0 <= i < |t| ==> Stamp(t[i]) <= Stamp(x)
    ensures NewestFirst([x] + t)
  {
    var r := [x] + t;
    forall i, j | 0 <= i < j < |r| ensures Stamp(r[j]) <= Stamp(r[i]) {
      assert r[j] == t[j - 1];
      if i > 0 {
        assert r[i] == t[i - 1];
      }
    }
  }

  lemma {:induction false} InsertKeepsOrder(d: Doc, s: seq<Doc>)
    requires NewestFirst(s)
    ensures NewestFirst(Insert(d, s))
  {
    if s == [] || Stamp(s[0]) <= Stamp(d) {
      ConsOrdered(d, s);
    } else {
      var rest := s[1..];
      assert forall i :: 0 <= i < |rest| ==> rest[i] == s[i + 1];
      InsertKeepsOrder(d, rest);
      InsertBounded(d, rest, Stamp(s[0]));
      ConsOrdered(s[0], Insert(d, rest));
    }
  }

  /** The entries in the store's descending `timestamp` order; among equal
      timestamps, collection order. */
  function SortNewest(c: seq<Doc>): (r: seq<Doc>)
    ensures multiset(r) == multiset(c)
  {
    if c == [] then []
    else
      assert c == [c[0]] + c[1..];
      Insert(c[0], SortNewest(c[1..]))
  }

  lemma {:induction false} SortNewestOrdered(c: seq<Doc>)
    ensures NewestFirst(SortNewest(c))
  {
    if c != [] {
      SortNewestOrdered(c[1..]);
      InsertKeepsOrder(c[0], SortNewest(c[1..]));
    }
  }

  /** What the store answers to `order_by("timestamp", DESCENDING).limit(k)`. */
  function Newest(c: seq<Doc>, k: nat): (r: seq<Doc>)
    ensures |r| == if k < |c| then k else |c|
  {
    var s := SortNewest(c);
    assert |s| == |multiset(s)| == |c|;
    if k < |s| then s[..k] else s
  }

  /** The answer is drawn from `c`: a sub-multiset of it. */
  lemma NewestFromInput(c: seq<Doc>, k: nat)
    ensures multiset(Newest(c, k)) <= multiset(c)
  {
    var s := SortNewest(c);
    if k < |s| {
      assert s == Newest(c, k) + s[k..];
      assert multiset(s) == multiset(Newest(c, k)) + multiset(s[k..]);
    }
  }

  /** The answer is newest first. */
  lemma NewestOrdered(c: seq<Doc>, k: nat)
    ensures NewestFirst(Newest(c, k))
  {
    SortNewestOrdered(c);
  }

  /** No entry of `c` left out of the answer is newer than an entry in it. */
  lemma NewestDominates(c: seq<Doc>, k: nat, x: Doc, y: Doc)
    requires x in Newest(c, k) && y in c && y !in Newest(c, k)
    ensures Stamp(y) <= Stamp(x)
  {
    var s := SortNewest(c);
    SortNewestOrdered(c);
    assert y in multiset(s);
    var j :| 0 <= j < |s| && s[j] == y;
    var i :| 0 <= i < |Newest(c, k)| && Newest(c, k)[i] == x;
    assert s[i] == x;
  }

  /** What the context keeps of one progress entry: `get('texto', '')`. */
  function Texto(d: Doc): Value {
    Get(d, "texto", Str(""))
  }

  function Textos(ds: seq<Doc>): (r: seq<Value>)
    ensures |r| == |ds| && forall i :: 0 <= i < |ds| ==> r[i] == Texto(ds[i])
  {
    seq(|ds|, i requires 0 <= i < |ds| => Texto(ds[i]))
  }

  /** The progress entries that make up a user's `avances`. */
  function RecentProgress(p: Profiles, uid: string): seq<Doc> {
    Newest(UserProgress(p.avances, uid), ProgressLimit)
  }

  // ---------------------------------------------------------------------------
  // Context assembly (get_user_data).

  /** The merged context of a user: the `users` document, overlaid by the
      `infouser` document, then `avances` and `userid`; empty when the user
      has no `users` document. */
  function AssembleContext(p: Profiles, uid: string): Doc {
    if uid !in p.users then map[]
    else
      var profile := p.users[uid] + (if uid in p.infouser then p.infouser[uid] else map[]);
      profile["avances" := List(Textos(RecentProgress(p, uid)))]["userid" := Str(uid)]
  }

  /** What `get_user_data` returns, or the exception it raises, given which
      collections are unreachable. */
  function ReadContext(p: Profiles, down: set<Collection>, uid: string): Result<Doc> {
    if Users in down then Failure(Unavailable(Users))
    else if uid !in p.users then Success(map[])
    else if InfoUser in down then Failure(Unavailable(InfoUser))
    else if Avances in down then Failure(Unavailable(Avances))
    else Success(AssembleContext(p, uid))
  }

  /** The context is empty exactly when the user has no `users` document. */
  lemma ContextEmptyIffNoUser(p: Profiles, uid: string)
    ensures AssembleContext(p, uid) == map[] <==> uid !in p.users
  {
    if uid in p.users {
      assert "userid" in AssembleContext(p, uid);
    }
  }

  /** Profile fields come from `users` then `infouser` (which wins on shared
      keys); `avances` and `userid` are set last and override stored fields. */
  lemma ContextMerge(p: Profiles, uid: string, k: string)
    requires uid in p.users
    ensures var ctx := AssembleContext(p, uid);
      && ctx["userid"] == Str(uid)
      && ctx["avances"] == List(Textos(RecentProgress(p, uid)))
      && (k != "userid" && k != "avances" ==>
            && (k in ctx <==> k in p.users[uid] || (uid in p.infouser && k in p.infouser[uid]))
            && (uid in p.infouser && k in p.infouser[uid] ==> ctx[k] == p.infouser[uid][k])
            && (k in p.users[uid] && (uid !in p.infouser || k !in p.infouser[uid]) ==> ctx[k] == p.users[uid][k]))
  {
  }

  /** `avances` holds the `texto` of at most five of the user's own entries,
      newest first, and no entry of the user left out is newer than one kept. */
  lemma ProgressIsNewestOfUser(p: Profiles, uid: string)
    ensures var r := RecentProgress(p, uid);
      && |r| <= ProgressLimit
      && (forall d :: d in r ==> d in p.avances && Get(d, "userid", Num(0)) == Str(uid))
      && (forall i, j :: 0 <= i < j < |r| ==> Stamp(r[j]) <= Stamp(r[i]))
      && (forall d :: d in p.avances && Stamped(d) && Get(d, "userid", Num(0)) == Str(uid) && d !in r ==>
            forall x :: x in r ==> Stamp(d) <= Stamp(x))
      && (|UserProgress(p.avances, uid)| >= ProgressLimit ==> |r| == ProgressLimit)
  {
    var c := UserProgress(p.avances, uid);
    var r := RecentProgress(p, uid);
    NewestFromInput(c, ProgressLimit);
    NewestOrdered(c, ProgressLimit);
    forall d | d in r ensures d in c {
      assert d in multiset(r);
    }
    forall d, x | d in c && d !in r && x in r
      ensures Stamp(d) <= Stamp(x)
    {
      NewestDominates(c, ProgressLimit, x, d);
    }
  }

  // ---------------------------------------------------------------------------
  // Daily-challenge records.

  /** The record `create_reto_diario` writes: the brief, the creation time,
      and the three stage fields empty. */
  function NewRecord(uid: string, brief: string, fecha: string, now: int): Doc {
    map["userid" := Str(uid), "brief" := Str(brief), "fecha" := Str(fecha), "timestamp" := Num(now),
        "retodia" := Str(""), "retoimagen" := Str(""), "retopodcast" := Str("")]
  }

  /** A record some stage has not filled yet: one of the three fields is falsy or missing. */
  predicate IsIncomplete(d: Doc) {
    exists f :: f in StageFields && !Truthy(Get(d, f, Str("")))
  }

  /** A new record holds the brief and user it was created for, and every stage field is empty. */
  lemma NewRecordIsBlank(uid: string, brief: string, fecha: string, now: int)
    ensures var d := NewRecord(uid, brief, fecha, now);
      && d["userid"] == Str(uid) && d["brief"] == Str(brief)
      && (forall f :: f in StageFields ==> f in d && d[f] == Str(""))
      && IsIncomplete(d)
  {
    assert !Truthy(Get(NewRecord(uid, brief, fecha, now), StageFields[0], Str("")));
  }

  /** A record is incomplete exactly when one of the three fields is missing or falsy. */
  lemma IncompleteIff(d: Doc)
    ensures IsIncomplete(d) <==>
      !Truthy(Get(d, "retodia", Str(""))) || !Truthy(Get(d, "retoimagen", Str(""))) || !Truthy(Get(d, "retopodcast", Str("")))
  {
    if !Truthy(Get(d, "retodia", Str(""))) { assert StageFields[0] == "retodia"; }
    if !Truthy(Get(d, "retoimagen", Str(""))) { assert StageFields[1] == "retoimagen"; }
    if !Truthy(Get(d, "retopodcast", Str(""))) { assert StageFields[2] == "retopodcast"; }
  }

  /** A record the "latest with brief" query can return for `uid`: it belongs
      to the user, has a `brief` different from `""`, and has a timestamp. */
  predicate Qualifies(d: Doc, uid: string) {
    Get(d, "userid", Num(0)) == Str(uid) && "brief" in d && d["brief"] != Str("") && Stamped(d)
  }

  /** Descending order of the query: newer timestamp first, ties by larger id. */
  predicate Later(i: RecordId, di: Doc, j: RecordId, dj: Doc) {
    Stamp(di) > Stamp(dj) || (Stamp(di) == Stamp(dj) && i > j)
  }

  class RecordStore {
    /** The read-only collections. */
    var profiles: Profiles
    /** The `retosdiarios` collection. */
    var retos: map<RecordId, Doc>
    /** The id the next created record receives. */
    var nextId: RecordId
    /** Collections whose calls currently raise. */
    var down: set<Collection>

    ghost predicate Valid()
      reads this
    {
      forall id :: id in retos ==> id < nextId
    }

    constructor (profiles: Profiles, down: set<Collection>)
      ensures Valid()
      ensures this.profiles == profiles && this.down == down && retos == map[] && nextId == 0
    {
      this.profiles := profiles;
      this.down := down;
      retos := map[];
      nextId := 0;
    }

    /** get_user_data: merge the user's documents and recent progress. */
    method GetUserData(uid: string) returns (r: Result<Doc>)
      ensures r == ReadContext(profiles, down, uid)
    {
      if Users in down {
        return Failure(Unavailable(Users));
      }
      if uid !in profiles.users {
        return Success(map[]);
      }
      var ctx := profiles.users[uid];
      if InfoUser in down {
        return Failure(Unavailable(InfoUser));
      }
      if uid in profiles.infouser {
        ctx := ctx + profiles.infouser[uid];
      } else {
        assert ctx + map[] == ctx;
      }
      if Avances in down {
        return Failure(Unavailable(Avances));
      }
      var texts := ProgressTexts(RecentProgress(profiles, uid));
      ctx := ctx["avances" := List(texts)];
      ctx := ctx["userid" := Str(uid)];
      assert ctx == AssembleContext(profiles, uid);
      return Success(ctx);
    }

    /** The `texto` of each progress entry, in order. */
    static method ProgressTexts(docs: seq<Doc>) returns (texts: seq<Value>)
      ensures texts == Textos(docs)
    {
      texts := [];
      var i := 0;
      while i < |docs|
        invariant 0 <= i <= |docs|
        invariant |texts| == i
        invariant forall j :: 0 <= j < i ==> texts[j] == Texto(docs[j])
      {
        texts := texts + [Texto(docs[i])];
        i := i + 1;
      }
    }

    /** get_all_active_users: the id of every `users` document, each once. */
    method ListActiveUsers() returns (r: Result<seq<string>>)
      ensures Users in down <==> r.Failure?
      ensures r.Failure? ==> r.error == Unavailable(Users)
      ensures r.Success? ==> (forall u :: u in r.value <==> u in profiles.users)
      ensures r.Success? ==> forall i, j :: 0 <= i < j < |r.value| ==> r.value[i] != r.value[j]
    {
      if Users in down {
        return Failure(Unavailable(Users));
      }
      var ids: seq<string> := [];
      var rest := profiles.users.Keys;
      while rest != {}
        invariant rest <= profiles.users.Keys
        invariant forall u :: u in ids <==> u in profiles.users && u !in rest
        invariant forall i, j :: 0 <= i < j < |ids| ==> ids[i] != ids[j]
        decreases rest
      {
        var u :| u in rest;
        ids := ids + [u];
        rest := rest - {u};
      }
      return Success(ids);
    }

    /** create_reto_diario: a new record with the brief and empty stage fields. */
    method CreateRecord(uid: string, brief: string, fecha: string, now: int) returns (r: Result<RecordId>)
      requires Valid()
      modifies this`retos, this`nextId
      ensures Valid()
      ensures Retos in down ==> r == Failure(Unavailable(Retos)) && retos == old(retos) && nextId == old(nextId)
      ensures Retos !in down ==>
        && r == Success(old(nextId)) && old(nextId) !in old(retos)
        && retos == old(retos)[old(nextId) := NewRecord(uid, brief, fecha, now)]
        && nextId == old(nextId) + 1
    {
      if Retos in down {
        return Failure(Unavailable(Retos));
      }
      var id := nextId;
      retos := retos[id := NewRecord(uid, brief, fecha, now)];
      nextId := nextId + 1;
      return Success(id);
    }

    /** update_reto_diario: apply exactly the supplied fields to an existing record. */
    method UpdateRecord(id: RecordId, updates: Doc) returns (r: Result<bool>)
      requires Valid()
      modifies this`retos
      ensures Valid()
      ensures r.Success? <==> Retos !in down && id in old(retos)
      ensures r.Success? ==> r.value && retos == old(retos)[id := old(retos)[id] + updates]
      ensures r.Failure? ==> retos == old(retos)
    {
      if Retos in down {
        return Failure(Unavailable(Retos));
      }
      if id !in retos {
        return Failure("404 No document to update");
      }
      retos := retos[id := retos[id] + updates];
      return Success(true);
    }

    /** get_reto_diario: the record, `None` when absent. */
    method GetRecord(id: RecordId) returns (r: Result<Option<Doc>>)
      ensures Retos in down <==> r.Failure?
      ensures r.Failure? ==> r.error == Unavailable(Retos)
      ensures r.Success? ==> (r.value.Some? <==> id in retos)
      ensures r.Success? && r.value.Some? ==> r.value.value == retos[id]
    {
      if Retos in down {
        return Failure(Unavailable(Retos));
      }
      if id in retos {
        return Success(Some(retos[id]));
      }
      return Success(None);
    }

    /** The newest qualifying record of the user, in the query's order. */
    ghost predicate IsLatestFor(id: RecordId, uid: string)
      reads this
    {
      && id in retos && Qualifies(retos[id], uid)
      && forall j :: j in retos && j != id && Qualifies(retos[j], uid) ==> Later(id, retos[id], j, retos[j])
    }

    /** get_latest_reto_with_brief: only the newest record of the user with a
        non-empty brief is examined; it is returned when a stage field is still empty. */
    method LatestIncompleteRecord(uid: string) returns (r: Result<Option<(RecordId, Doc)>>)
      ensures Retos in down <==> r.Failure?
      ensures r.Success? && r.value.Some? ==>
        var (id, d) := r.value.value; IsLatestFor(id, uid) && d == retos[id] && IsIncomplete(d)
      ensures r.Success? && r.value.None? ==>
        forall id :: IsLatestFor(id, uid) ==> !IsIncomplete(retos[id])
    {
      if Retos in down {
        return Failure(Unavailable(Retos));
      }
      var candidates := set id | id in retos && Qualifies(retos[id], uid);
      if candidates == {} {
        assert forall id :: IsLatestFor(id, uid) ==> id in candidates;
        return Success(None);
      }
      var best :| best in candidates;
      var rest := candidates - {best};
      while rest != {}
        invariant rest <= candidates && best in candidates && best !in rest
        invariant forall j :: j in candidates && j !in rest && j != best ==> Later(best, retos[best], j, retos[j])
        decreases rest
      {
        var j :| j in rest;
        if Later(j, retos[j], best, retos[best]) {
          best := j;
        }
        rest := rest - {j};
      }
      assert IsLatestFor(best, uid);
      forall id | IsLatestFor(id, uid) ensures id == best {
        assert !(Later(id, retos[id], best, retos[best]) && Later(best, retos[best], id, retos[id]));
      }
      if IsIncomplete(retos[best]) {
        return Success(Some((best, retos[best])));
      }
      return Success(None);
    }
  }
}
