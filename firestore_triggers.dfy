/** `FirestoreTriggersHandler`: the three stages that follow the brief
    (challenge text, image, podcast), each filling one field of the daily
    record, and the summary of a run of all three. */
module FirestoreTriggers {
  import opened Wrappers
  import opened Documents
  import opened ByteSeq
  import opened VertexAI
  import opened FirestoreService

  /** The prompt templates of the three stages. */
  datatype Templates = Templates(retoDia: string, imagen: string, podcast: string)

  /** The providers the stages call. The image and audio calls receive the
      `userid` field of the context; each gives its result (`Empty` for
      `None`) or the message of the exception it raises. */
  datatype Providers = Providers(
    text: TextModel,
    templates: Templates,
    today: Date,
    image: (string, Value) -> Outcome<Bytes>,
    imageUpload: (Bytes, Value) -> Outcome<string>,
    audio: (string, Value) -> Outcome<Bytes>,
    audioUpload: (Bytes, Value) -> Outcome<string>)

  datatype Stage = RetoDiaStage | ImagenStage | PodcastStage

  /** The one record field each stage writes. */
  function Field(s: Stage): (f: string)
    ensures f in StageFields
  {
    match s
    case RetoDiaStage => "retodia"
    case ImagenStage => "retoimagen"
    case PodcastStage => "retopodcast"
  }

  /** Distinct stages own distinct fields. */
  lemma FieldsDisjoint(s: Stage, t: Stage)
    ensures Field(s) == Field(t) <==> s == t
  {
  }

  /** A truthy step result: `Ok` with non-empty bytes. */
  function NonEmptyBytes(o: Outcome<Bytes>): Option<Bytes> {
    if o.Ok? && o.value != [] then Some(o.value) else None
  }

  /** A truthy step result: `Ok` with non-empty text. */
  function NonEmptyText(o: Outcome<string>): Option<string> {
    if o.Ok? && o.value != "" then Some(o.value) else None
  }

  /** `process_reto_dia` up to the write: the generated text, when non-empty. */
  function RetoDiaValue(p: Providers, ctx: Doc): Option<string> {
    var t := Generate(p.text, RetoDia, p.templates.retoDia, ctx, p.today);
    if t != "" then Some(t) else None
  }

  /** `process_imagen` up to the write: prompt, image bytes, uploaded URL,
      stopping at the first empty or failed step. */
  function ImagenValue(p: Providers, ctx: Doc): Option<string>
    requires "userid" in ctx
  {
    var prompt := Generate(p.text, ImagenPrompt, p.templates.imagen, ctx, p.today);
    if prompt == "" then None
    else
      match NonEmptyBytes(p.image(prompt, ctx["userid"]))
      case None => None
      case Some(bytes) => NonEmptyText(p.imageUpload(bytes, ctx["userid"]))
  }

  /** `process_podcast` up to the write: script, audio bytes, uploaded URL,
      stopping at the first empty or failed step. */
  function PodcastValue(p: Providers, ctx: Doc): Option<string>
    requires "userid" in ctx
  {
    var script := Generate(p.text, PodcastScript, p.templates.podcast, ctx, p.today);
    if script == "" then None
    else
      match NonEmptyBytes(p.audio(script, ctx["userid"]))
      case None => None
      case Some(bytes) => NonEmptyText(p.audioUpload(bytes, ctx["userid"]))
  }

  /** What a stage would write. Reading `user_data['userid']` for the log line
      raises `KeyError` when the field is missing, which the stage turns into
      `False`. */
  function StageValue(p: Providers, ctx: Doc, s: Stage): (r: Option<string>)
    ensures r.Some? ==> r.value != ""
  {
    if "userid" !in ctx then None
    else
      match s
      case RetoDiaStage => RetoDiaValue(p, ctx)
      case ImagenStage => ImagenValue(p, ctx)
      case PodcastStage => PodcastValue(p, ctx)
  }

  /** The image stage yields the upload's URL exactly when the prompt, the
      image bytes and the URL are all non-empty. */
  lemma ImagenSteps(p: Providers, ctx: Doc)
    requires "userid" in ctx
    ensures
      var prompt := Generate(p.text, ImagenPrompt, p.templates.imagen, ctx, p.today);
      var bytes := p.image(prompt, ctx["userid"]);
      && (StageValue(p, ctx, ImagenStage).Some? <==>
            && prompt != "" && bytes.Ok? && bytes.value != []
            && p.imageUpload(bytes.value, ctx["userid"]).Ok? && p.imageUpload(bytes.value, ctx["userid"]).value != "")
      && (StageValue(p, ctx, ImagenStage).Some? ==>
            StageValue(p, ctx, ImagenStage).value == p.imageUpload(bytes.value, ctx["userid"]).value)
  {
  }

  /** The podcast stage yields the upload's URL exactly when the script, the
      audio and the URL are all non-empty. */
  lemma PodcastSteps(p: Providers, ctx: Doc)
    requires "userid" in ctx
    ensures
      var script := Generate(p.text, PodcastScript, p.templates.podcast, ctx, p.today);
      var audio := p.audio(script, ctx["userid"]);
      && (StageValue(p, ctx, PodcastStage).Some? <==>
            && script != "" && audio.Ok? && audio.value != []
            && p.audioUpload(audio.value, ctx["userid"]).Ok? && p.audioUpload(audio.value, ctx["userid"]).value != "")
      && (StageValue(p, ctx, PodcastStage).Some? ==>
            StageValue(p, ctx, PodcastStage).value == p.audioUpload(audio.value, ctx["userid"]).value)
  {
  }

  /** A failing text model does not stop a stage: the wrapper's error text is
      non-empty, so it is what gets written. */
  lemma ErrorTextIsWritten(p: Providers, ctx: Doc)
    requires "userid" in ctx
    requires p.text(Render(p.templates.retoDia, ctx, p.today)).Fail?
    ensures StageValue(p, ctx, RetoDiaStage)
            == Some("Error generating reto dia: " + p.text(Render(p.templates.retoDia, ctx, p.today)).msg)
  {
    var t := Generate(p.text, RetoDia, p.templates.retoDia, ctx, p.today);
    assert t == "Error generating reto dia: " + p.text(Render(p.templates.retoDia, ctx, p.today)).msg;
    assert t[0] == 'E';
  }

  /** A record with field `f` set to `v`, when there is a value. */
  function Patch(d: Doc, f: string, v: Option<string>): Doc {
    match v
    case None => d
    case Some(t) => d[f := Str(t)]
  }

  /** The record after a stage: its one field set when the stage has a value. */
  function WithStage(d: Doc, p: Providers, ctx: Doc, s: Stage): Doc {
    Patch(d, Field(s), StageValue(p, ctx, s))
  }

  /** The record after the three stages. */
  function AfterStages(d: Doc, p: Providers, ctx: Doc): Doc {
    WithStage(WithStage(WithStage(d, p, ctx, RetoDiaStage), p, ctx, ImagenStage), p, ctx, PodcastStage)
  }

  /** After the three stages every other field is as it was, and each stage's
      field holds that stage's value when it has one and is untouched
      otherwise: one stage's failure does not reach another's field. */
  lemma AfterStagesFields(d: Doc, p: Providers, ctx: Doc)
    ensures forall k :: k !in StageFields ==> (k in AfterStages(d, p, ctx) <==> k in d)
    ensures forall k :: k !in StageFields && k in d ==> AfterStages(d, p, ctx)[k] == d[k]
    ensures forall s: Stage :: StageValue(p, ctx, s).Some? ==>
      Field(s) in AfterStages(d, p, ctx) && AfterStages(d, p, ctx)[Field(s)] == Str(StageValue(p, ctx, s).value)
    ensures forall s: Stage :: StageValue(p, ctx, s).None? ==>
      (Field(s) in AfterStages(d, p, ctx) <==> Field(s) in d)
      && (Field(s) in d ==> AfterStages(d, p, ctx)[Field(s)] == d[Field(s)])
  {
    forall s: Stage ensures StageValue(p, ctx, s).Some? ==>
      Field(s) in AfterStages(d, p, ctx) && AfterStages(d, p, ctx)[Field(s)] == Str(StageValue(p, ctx, s).value)
    {
      FieldsDisjoint(s, RetoDiaStage);
      FieldsDisjoint(s, ImagenStage);
      FieldsDisjoint(s, PodcastStage);
    }
    forall s: Stage ensures StageValue(p, ctx, s).None? ==>
      (Field(s) in AfterStages(d, p, ctx) <==> Field(s) in d)
      && (Field(s) in d ==> AfterStages(d, p, ctx)[Field(s)] == d[Field(s)])
    {
      FieldsDisjoint(s, RetoDiaStage);
      FieldsDisjoint(s, ImagenStage);
      FieldsDisjoint(s, PodcastStage);
    }
  }

  /** A patch of one field is that field's update. */
  lemma PatchOne(d: Doc, f: string, v: Value)
    ensures d + map[f := v] == d[f := v]
  {
  }

  /** The write that ends a stage: patch the record with the single field
      when there is a value; a store failure becomes `false`. */
  method WriteField(store: RecordStore, id: RecordId, f: string, v: Option<string>) returns (ok: bool)
    requires store.Valid()
    modifies store`retos
    ensures store.Valid()
    ensures ok <==> v.Some? && Retos !in store.down && id in old(store.retos)
    ensures ok ==> store.retos == old(store.retos)[id := old(store.retos)[id][f := Str(v.value)]]
    ensures !ok ==> store.retos == old(store.retos)
    ensures Retos !in store.down && id in old(store.retos) ==>
      store.retos == old(store.retos)[id := Patch(old(store.retos)[id], f, v)]
  {
    if v.None? {
      return false;
    }
    var r := store.UpdateRecord(id, map[f := Str(v.value)]);
    if r.Success? {
      PatchOne(old(store.retos)[id], f, Str(v.value));
    }
    return r.Success?;
  }

  /** One stage: compute the value, then patch the record with that single
      field. Every exception, from a provider or from the store, becomes `false`. */
  method RunStage(store: RecordStore, p: Providers, ctx: Doc, id: RecordId, s: Stage) returns (ok: bool)
    requires store.Valid()
    modifies store`retos
    ensures store.Valid()
    ensures ok <==> StageValue(p, ctx, s).Some? && Retos !in store.down && id in old(store.retos)
    ensures ok ==> store.retos == old(store.retos)[id := WithStage(old(store.retos)[id], p, ctx, s)]
    ensures !ok ==> store.retos == old(store.retos)
    ensures Retos !in store.down && id in old(store.retos) ==>
      store.retos == old(store.retos)[id := WithStage(old(store.retos)[id], p, ctx, s)]
  {
    ok := WriteField(store, id, Field(s), StageValue(p, ctx, s));
  }

  /** `process_reto_dia` */
  method ProcessRetoDia(store: RecordStore, p: Providers, ctx: Doc, id: RecordId) returns (ok: bool)
    requires store.Valid()
    modifies store`retos
    ensures store.Valid()
    ensures ok <==> StageValue(p, ctx, RetoDiaStage).Some? && Retos !in store.down && id in old(store.retos)
    ensures ok ==> store.retos == old(store.retos)[id := old(store.retos)[id]["retodia" := Str(StageValue(p, ctx, RetoDiaStage).value)]]
    ensures !ok ==> store.retos == old(store.retos)
  {
    ok := RunStage(store, p, ctx, id, RetoDiaStage);
  }

  /** `process_imagen` */
  method ProcessImagen(store: RecordStore, p: Providers, ctx: Doc, id: RecordId) returns (ok: bool)
    requires store.Valid()
    modifies store`retos
    ensures store.Valid()
    ensures ok <==> StageValue(p, ctx, ImagenStage).Some? && Retos !in store.down && id in old(store.retos)
    ensures ok ==> store.retos == old(store.retos)[id := old(store.retos)[id]["retoimagen" := Str(StageValue(p, ctx, ImagenStage).value)]]
    ensures !ok ==> store.retos == old(store.retos)
  {
    ok := RunStage(store, p, ctx, id, ImagenStage);
  }

  /** `process_podcast` */
  method ProcessPodcast(store: RecordStore, p: Providers, ctx: Doc, id: RecordId) returns (ok: bool)
    requires store.Valid()
    modifies store`retos
    ensures store.Valid()
    ensures ok <==> StageValue(p, ctx, PodcastStage).Some? && Retos !in store.down && id in old(store.retos)
    ensures ok ==> store.retos == old(store.retos)[id := old(store.retos)[id]["retopodcast" := Str(StageValue(p, ctx, PodcastStage).value)]]
    ensures !ok ==> store.retos == old(store.retos)
  {
    ok := RunStage(store, p, ctx, id, PodcastStage);
  }

  /** The number of `True` results. */
  function CountTrue(rs: seq<bool>): (n: nat)
    ensures n <= |rs|
  {
    if rs == [] then 0 else CountTrue(rs[..|rs| - 1]) + (if rs[|rs| - 1] then 1 else 0)
  }

  /** No result is `True` exactly when the count is zero. */
  lemma {:induction false} CountTrueZero(rs: seq<bool>)
    ensures CountTrue(rs) == 0 <==> forall i :: 0 <= i < |rs| ==> !rs[i]
    ensures CountTrue(rs) == |rs| <==> forall i :: 0 <= i < |rs| ==> rs[i]
  {
    if rs != [] {
      var init := rs[..|rs| - 1];
      CountTrueZero(init);
      assert forall i :: 0 <= i < |init| ==> init[i] == rs[i];
      if !rs[|rs| - 1] {
        assert CountTrue(rs) == CountTrue(init) < |rs|;
      }
    }
  }

  /** Three results: the count is the sum of their indicators. */
  lemma CountThree(a: bool, b: bool, c: bool)
    ensures CountTrue([a, b, c]) == (if a then 1 else 0) + (if b then 1 else 0) + (if c then 1 else 0)
  {
    assert [a, b, c][..2] == [a, b];
    assert [a, b][..1] == [a];
    assert [a][..0] == [];
    assert CountTrue([a]) == CountTrue([]) + (if a then 1 else 0);
    assert CountTrue([a, b]) == CountTrue([a]) + (if b then 1 else 0);
    assert CountTrue([a, b, c]) == CountTrue([a, b]) + (if c then 1 else 0);
  }

  /** The dictionary `process_all_prompts` returns. */
  datatype Summary =
    | Failed(error: string)
    | Completed(success: bool, totalTasks: nat, successfulTasks: nat, failedTasks: nat,
                retoDia: bool, imagen: bool, podcast: bool)

  /** The summary of the three stage results. */
  function Summarize(retoDia: bool, imagen: bool, podcast: bool): (r: Summary)
    ensures r.Completed? && r.totalTasks == 3
    ensures r.successfulTasks == CountTrue([retoDia, imagen, podcast])
    ensures r.successfulTasks + r.failedTasks == r.totalTasks
    ensures r.success <==> retoDia || imagen || podcast
    ensures r.retoDia == retoDia && r.imagen == imagen && r.podcast == podcast
  {
    var n := CountTrue([retoDia, imagen, podcast]);
    CountThree(retoDia, imagen, podcast);
    Completed(n > 0, 3, n, 3 - n, retoDia, imagen, podcast)
  }

  const UserNotFound := "User data not found"
  const RecordNotFound := "Reto diario not found"

  /** The context the stages see: the user's context with the record's
      `brief` (`''` when the record has none). No stage is gated on it. */
  function StageContext(ctx: Doc, record: Doc): (r: Doc)
    ensures r.Keys == ctx.Keys + {"brief"}
    ensures forall k :: k in ctx && k != "brief" ==> r[k] == ctx[k]
    ensures r["brief"] == Get(record, "brief", Str(""))
  {
    ctx["brief" := Get(record, "brief", Str(""))]
  }

  /** The three writes in turn on a reachable record: each succeeds exactly
      when there is a value, and the record ends with the three patches. */
  method WriteStages(store: RecordStore, id: RecordId, v1: Option<string>, v2: Option<string>, v3: Option<string>)
    returns (a: bool, b: bool, c: bool)
    requires store.Valid() && Retos !in store.down && id in store.retos
    modifies store`retos
    ensures store.Valid()
    ensures a == v1.Some? && b == v2.Some? && c == v3.Some?
    ensures store.retos == old(store.retos)[id :=
      Patch(Patch(Patch(old(store.retos)[id], "retodia", v1), "retoimagen", v2), "retopodcast", v3)]
  {
    a := WriteField(store, id, "retodia", v1);
    b := WriteField(store, id, "retoimagen", v2);
    c := WriteField(store, id, "retopodcast", v3);
  }

  /** `process_all_prompts`: load the context and the record, stop with an
      error when either is missing or empty, else run the three stages (one
      after the other: they write different fields) and summarise. */
  method ProcessAllPrompts(store: RecordStore, p: Providers, uid: string, id: RecordId) returns (r: Summary)
    requires store.Valid()
    modifies store`retos
    ensures store.Valid()
    ensures r.Failed? ==> store.retos == old(store.retos)
    ensures
      var user := ReadContext(store.profiles, store.down, uid);
      && (user.Failure? ==> r == Failed(user.error))
      && (user == Success(map[]) ==> r == Failed(UserNotFound))
      && (user.Success? && user.value != map[] && Retos in store.down ==> r == Failed(Unavailable(Retos)))
      && ((user.Success? && user.value != map[] && Retos !in store.down
           && (id !in old(store.retos) || old(store.retos)[id] == map[])) ==> r == Failed(RecordNotFound))
      && ((user.Success? && user.value != map[] && Retos !in store.down
           && id in old(store.retos) && old(store.retos)[id] != map[]) ==> r.Completed?)
    ensures r.Completed? ==>
      var ctx := StageContext(ReadContext(store.profiles, store.down, uid).value, old(store.retos)[id]);
      && ReadContext(store.profiles, store.down, uid).Success? && id in old(store.retos)
      && r == Summarize(StageValue(p, ctx, RetoDiaStage).Some?, StageValue(p, ctx, ImagenStage).Some?,
                        StageValue(p, ctx, PodcastStage).Some?)
      && store.retos == old(store.retos)[id := AfterStages(old(store.retos)[id], p, ctx)]
  {
    var user := store.GetUserData(uid);
    if user.Failure? {
      return Failed(user.error);
    }
    if user.value == map[] {
      return Failed(UserNotFound);
    }
    var record := store.GetRecord(id);
    if record.Failure? {
      return Failed(record.error);
    }
    if record.value.None? || record.value.value == map[] {
      return Failed(RecordNotFound);
    }
    var ctx := StageContext(user.value, record.value.value);
    var a, b, c := WriteStages(store, id, StageValue(p, ctx, RetoDiaStage), StageValue(p, ctx, ImagenStage),
                               StageValue(p, ctx, PodcastStage));
    r := Summarize(a, b, c);
  }
}
