/** Prompt rendering and the text-generation wrappers of `VertexAIService`:
    a template's `{placeholder}` slots are filled from a user context by a
    fixed chain of replacements, and a model failure becomes an error text. */
module VertexAI {
  import opened Wrappers
  import opened Strings
  import opened Documents

  /** The text of `{avances}` when the context has no progress. */
  const NoProgress: string := "No hay avances registrados"

  /** The text of `{nombre}` when the context has no name. */
  const DefaultName: string := "Usuario"

  // ---------------------------------------------------------------------------
  // The date of `{fecha}`: `datetime.now().strftime("%Y-%m-%d")`, with the
  // clock reading passed in.

  datatype Date = Date(year: nat, month: nat, day: nat)

  /** The range `datetime` accepts. */
  predicate ValidDate(d: Date) {
    1 <= d.year <= 9999 && 1 <= d.month <= 12 && 1 <= d.day <= 31
  }

  function Zeros(n: nat): (r: string)
    ensures |r| == n && forall i :: 0 <= i < n ==> r[i] == '0'
  {
    if n == 0 then [] else ['0'] + Zeros(n - 1)
  }

  /** `n` in decimal, zero-padded on the left to at least `w` digits (`%0wd`). */
  function Pad(n: nat, w: nat): (r: string)
    ensures |r| >= w && forall i :: 0 <= i < |r| ==> IsDigit(r[i])
  {
    var d := Decimal(n);
    if |d| >= w then d else Zeros(w - |d|) + d
  }

  function IsoDate(d: Date): string {
    Pad(d.year, 4) + "-" + Pad(d.month, 2) + "-" + Pad(d.day, 2)
  }

  /** Leading zeros do not change the value of a digit string. */
  lemma {:induction false} LeadingZerosValue(z: nat, s: string)
    requires forall i :: 0 <= i < |s| ==> IsDigit(s[i])
    ensures forall i :: 0 <= i < |Zeros(z) + s| ==> IsDigit((Zeros(z) + s)[i])
    ensures DigitsValue(Zeros(z) + s) == DigitsValue(s)
    decreases |s|, z
  {
    var t := Zeros(z) + s;
    assert forall i :: 0 <= i < |t| ==> IsDigit(t[i]);
    if s == [] {
      assert t == Zeros(z);
      if z > 0 {
        assert t[..|t| - 1] == Zeros(z - 1);
        LeadingZerosValue(z - 1, s);
        assert Zeros(z - 1) + s == Zeros(z - 1);
      }
    } else {
      var s' := s[..|s| - 1];
      assert t[..|t| - 1] == Zeros(z) + s';
      LeadingZerosValue(z, s');
    }
  }

  /** A padded number reads back as the number. */
  lemma ParsePad(n: nat, w: nat)
    ensures ParseInt(Pad(n, w)) == Some(n)
  {
    var d := Decimal(n);
    ParseDigits(Pad(n, w));
    DecimalValue(n);
    if |d| < w {
      LeadingZerosValue(w - |d|, d);
    }
  }

  /** `{fecha}` is ten characters `YYYY-MM-DD` whose three fields read back
      as the year, month and day. */
  lemma IsoDateFields(d: Date)
    requires ValidDate(d)
    ensures |IsoDate(d)| == 10 && IsoDate(d)[4] == '-' && IsoDate(d)[7] == '-'
    ensures ParseInt(IsoDate(d)[..4]) == Some(d.year)
    ensures ParseInt(IsoDate(d)[5..7]) == Some(d.month)
    ensures ParseInt(IsoDate(d)[8..]) == Some(d.day)
  {
    DecimalBound(d.year, 4);
    DecimalBound(d.month, 2);
    DecimalBound(d.day, 2);
    DateParts(Pad(d.year, 4), Pad(d.month, 2), Pad(d.day, 2));
    ParsePad(d.year, 4);
    ParsePad(d.month, 2);
    ParsePad(d.day, 2);
  }

  lemma DateParts(y: string, m: string, dd: string)
    requires |y| == 4 && |m| == 2 && |dd| == 2
    ensures |y + "-" + m + "-" + dd| == 10
    ensures (y + "-" + m + "-" + dd)[4] == '-' && (y + "-" + m + "-" + dd)[7] == '-'
    ensures (y + "-" + m + "-" + dd)[..4] == y
    ensures (y + "-" + m + "-" + dd)[5..7] == m
    ensures (y + "-" + m + "-" + dd)[8..] == dd
  {
  }

  /** A number below `10^w` has at most `w` digits, so padding gives exactly `w`. */
  lemma DecimalBound(n: nat, w: nat)
    requires (w == 4 && n < 10000) || (w == 2 && n < 100)
    ensures |Pad(n, w)| == w
  {
    if n >= 10 {
      if n >= 100 {
        if n >= 1000 {
          assert Decimal(n) == Decimal(n / 10) + [('0' as int + n % 10) as char];
          assert Decimal(n / 10) == Decimal(n / 100) + [('0' as int + (n / 10) % 10) as char];
          assert Decimal(n / 100) == Decimal(n / 1000) + [('0' as int + (n / 100) % 10) as char];
        } else {
          assert Decimal(n) == Decimal(n / 10) + [('0' as int + n % 10) as char];
          assert Decimal(n / 10) == Decimal(n / 100) + [('0' as int + (n / 10) % 10) as char];
        }
      } else {
        assert Decimal(n) == Decimal(n / 10) + [('0' as int + n % 10) as char];
      }
    }
  }

  // ---------------------------------------------------------------------------
  // Placeholder slots and the replacement chain.

  /** The placeholder text of a slot name: `{name}`. */
  function Slot(name: string): string {
    "{" + name + "}"
  }

  /** A slot name: no braces inside. */
  predicate SlotName(name: string) {
    '{' !in name && '}' !in name
  }

  /** One step of the chain: every `{name}` becomes `value`. */
  datatype Binding = Binding(name: string, value: string)

  /** The chain of `template.replace(...)` calls, first binding first, each on
      the text the previous one produced. */
  function ApplyAll(s: string, bs: seq<Binding>): string
    decreases |bs|
  {
    if bs == [] then s else ApplyAll(Replace(s, Slot(bs[0].name), bs[0].value), bs[1..])
  }

  /** The text a slot ends up as: the value of the first binding for it, or the
      placeholder itself when no binding names it. */
  function Lookup(bs: seq<Binding>, name: string): string {
    if bs == [] then Slot(name)
    else if bs[0].name == name then bs[0].value
    else Lookup(bs[1..], name)
  }

  /** Text without an opening brace goes through the chain unchanged. */
  lemma {:induction false} ApplyAllNoSlots(s: string, bs: seq<Binding>)
    requires '{' !in s
    ensures ApplyAll(s, bs) == s
    decreases |bs|
  {
    if bs != [] {
      ReplaceAbsent(s, Slot(bs[0].name), bs[0].value);
      ApplyAllNoSlots(s, bs[1..]);
    }
  }

  /** A slot is not touched by the replacement of a different slot. */
  lemma SlotUntouched(u: string, w: string, b: string, v: string)
    requires SlotName(u) && SlotName(w) && u != w && '{' !in b
    ensures Replace(Slot(u) + b, Slot(w), v) == Slot(u) + b
  {
    var s := Slot(u) + b;
    var q := Slot(w);
    if |s| >= |q| {
      var h := s[..|q|];
      if |w| < |u| {
        assert u[|w|] in u;
        assert h[|w| + 1] == u[|w|] != '}' == q[|w| + 1];
      } else if |w| > |u| {
        assert w[|u|] in w;
        assert h[|u| + 1] == '}' != w[|u|] == q[|u| + 1];
      } else {
        assert h[1..|u| + 1] == u != w == q[1..|w| + 1];
      }
      assert h != q;
      assert s == "{" + (u + "}" + b);
      assert s[1..] == u + "}" + b;
      ReplaceAbsent(s[1..], q, v);
    }
  }

  /** Filling one slot in `a + {u} + b`: the slot becomes what the chain binds
      `u` to, and the text around it is kept, provided the surrounding text
      and the bound values hold no `{` of their own. */
  lemma {:induction false} FillSlot(a: string, u: string, b: string, bs: seq<Binding>)
    requires '{' !in a && '{' !in b && SlotName(u)
    requires forall i :: 0 <= i < |bs| ==> SlotName(bs[i].name) && '{' !in bs[i].value
    ensures ApplyAll(a + Slot(u) + b, bs) == a + Lookup(bs, u) + b
    decreases |bs|
  {
    if bs != [] {
      var w, v := bs[0].name, bs[0].value;
      var p := Slot(w);
      assert p[0] == '{';
      assert a + Slot(u) + b == a + (Slot(u) + b);
      ReplaceSkipsPrefix(a, Slot(u) + b, p, v);
      if w == u {
        ReplaceLeading(p, b, v);
        ReplaceAbsent(b, p, v);
        assert Replace(a + Slot(u) + b, p, v) == a + v + b;
        assert '{' !in a + v + b;
        ApplyAllNoSlots(a + v + b, bs[1..]);
      } else {
        SlotUntouched(u, w, b, v);
        FillSlot(a, u, b, bs[1..]);
      }
    }
  }

  /** A slot is skipped by the replacement of a different slot, whatever follows it. */
  lemma SlotSkip(u: string, w: string, t: string, v: string)
    requires SlotName(u) && SlotName(w) && u != w
    ensures Replace(Slot(u) + t, Slot(w), v) == Slot(u) + Replace(t, Slot(w), v)
  {
    var s := Slot(u) + t;
    var q := Slot(w);
    if |s| >= |q| {
      var h := s[..|q|];
      if |w| < |u| {
        assert u[|w|] in u;
        assert h[|w| + 1] == u[|w|] != '}' == q[|w| + 1];
      } else if |w| > |u| {
        assert w[|u|] in w;
        assert h[|u| + 1] == '}' != w[|u|] == q[|u| + 1];
      } else {
        assert h[1..|u| + 1] == u != w == q[1..|w| + 1];
      }
      assert h != q;
      assert s[1..] == (u + "}") + t;
      assert '{' !in u + "}";
      ReplaceSkipsPrefix(u + "}", t, q, v);
      assert Slot(u) == [s[0]] + (u + "}");
    } else {
      assert |t| < |q|;
    }
  }

  /** A template cut at its slots: `fills[0] + texts[0] + fills[1] + texts[1] + …`,
      where each fill is a placeholder or the text that replaced it. */
  function Interleave(fills: seq<string>, texts: seq<string>): string
    requires |fills| == |texts|
  {
    if fills == [] then "" else fills[0] + texts[0] + Interleave(fills[1..], texts[1..])
  }

  /** The placeholders of the named slots. */
  function Slots(names: seq<string>): seq<string> {
    seq(|names|, i requires 0 <= i < |names| => Slot(names[i]))
  }

  /** The texts a chain puts in place of the named slots. */
  function Lookups(bs: seq<Binding>, names: seq<string>): seq<string> {
    seq(|names|, i requires 0 <= i < |names| => Lookup(bs, names[i]))
  }

  /** The fills after one `replace(slot(w), v)`. */
  function Step(fills: seq<string>, w: string, v: string): seq<string> {
    seq(|fills|, i requires 0 <= i < |fills| => if fills[i] == Slot(w) then v else fills[i])
  }

  /** The fills once a chain has run: a slot still open takes its lookup. */
  function Resolve(fills: seq<string>, names: seq<string>, bs: seq<Binding>): seq<string>
    requires |fills| == |names|
  {
    seq(|fills|, i requires 0 <= i < |fills| => if fills[i] == Slot(names[i]) then Lookup(bs, names[i]) else fills[i])
  }

  /** Each fill is still the placeholder of its slot, or text without `{`. */
  predicate Fills(fills: seq<string>, names: seq<string>, texts: seq<string>) {
    && |fills| == |names| == |texts|
    && (forall i :: 0 <= i < |names| ==> SlotName(names[i]) && '{' !in texts[i])
    && (forall i :: 0 <= i < |fills| ==> fills[i] == Slot(names[i]) || '{' !in fills[i])
  }

  /** One replacement past a fill and the text after it: the fill changes
      only when it is the replaced placeholder. */
  lemma ReplaceFill(f: string, n0: string, t: string, r: string, w: string, v: string)
    requires SlotName(n0) && SlotName(w) && '{' !in t && (f == Slot(n0) || '{' !in f)
    ensures Replace(f + t + r, Slot(w), v) == (if f == Slot(w) then v else f) + t + Replace(r, Slot(w), v)
  {
    var q := Slot(w);
    assert q[0] == '{';
    assert f + t + r == f + (t + r);
    ReplaceSkipsPrefix(t, r, q, v);
    if f == q {
      ReplaceLeading(q, t + r, v);
    } else if f == Slot(n0) {
      SlotSkip(n0, w, t + r, v);
    } else {
      ReplaceSkipsPrefix(f + t, r, q, v);
    }
  }

  /** One replacement on a template with any number of slots: every occurrence
      of the replaced placeholder becomes `v`, all the rest is kept. */
  lemma {:induction false} ReplaceInterleave(fills: seq<string>, names: seq<string>, texts: seq<string>, w: string, v: string)
    requires Fills(fills, names, texts) && SlotName(w)
    ensures Replace(Interleave(fills, texts), Slot(w), v) == Interleave(Step(fills, w, v), texts)
    decreases |fills|
  {
    if fills != [] {
      assert Fills(fills[1..], names[1..], texts[1..]);
      ReplaceInterleave(fills[1..], names[1..], texts[1..], w, v);
      assert Step(fills, w, v)[1..] == Step(fills[1..], w, v);
      ReplaceFill(fills[0], names[0], texts[0], Interleave(fills[1..], texts[1..]), w, v);
    }
  }

  /** The whole chain on a template with any number of slots, the first
      binding of each name deciding what its slots become. */
  lemma {:induction false} ApplyAllInterleave(fills: seq<string>, names: seq<string>, texts: seq<string>, bs: seq<Binding>)
    requires Fills(fills, names, texts)
    requires forall i :: 0 <= i < |bs| ==> SlotName(bs[i].name) && '{' !in bs[i].value
    ensures ApplyAll(Interleave(fills, texts), bs) == Interleave(Resolve(fills, names, bs), texts)
    decreases |bs|
  {
    if bs == [] {
      assert Resolve(fills, names, bs) == fills;
    } else {
      var w, v := bs[0].name, bs[0].value;
      ReplaceInterleave(fills, names, texts, w, v);
      var next := Step(fills, w, v);
      assert Fills(next, names, texts);
      ApplyAllInterleave(next, names, texts, bs[1..]);
      forall i | 0 <= i < |fills|
        ensures Resolve(next, names, bs[1..])[i] == Resolve(fills, names, bs)[i]
      {
        assert Slot(w)[0] == '{' && Slot(names[i])[0] == '{';
        if fills[i] == Slot(names[i]) && names[i] != w {
          assert Slot(names[i])[1..|Slot(names[i])| - 1] == names[i];
          assert Slot(w)[1..|Slot(w)| - 1] == w;
        }
      }
      assert Resolve(next, names, bs[1..]) == Resolve(fills, names, bs);
      assert ApplyAll(Interleave(fills, texts), bs) == ApplyAll(Interleave(next, texts), bs[1..]);
    }
  }

  /** Text without `{` in front of the template passes through the chain. */
  lemma {:induction false} ApplyAllSkipsPrefix(a: string, t: string, bs: seq<Binding>)
    requires '{' !in a
    ensures ApplyAll(a + t, bs) == a + ApplyAll(t, bs)
    decreases |bs|
  {
    if bs != [] {
      assert Slot(bs[0].name)[0] == '{';
      ReplaceSkipsPrefix(a, t, Slot(bs[0].name), bs[0].value);
      ApplyAllSkipsPrefix(a, Replace(t, Slot(bs[0].name), bs[0].value), bs[1..]);
    }
  }

  // ---------------------------------------------------------------------------
  // The values of the slots, drawn from the context.

  /** A context field used as replacement text; any non-text value makes
      `str.replace` raise. */
  function Text(v: Value): Option<string> {
    if v.Str? then Some(v.s) else None
  }

  /** The stored text of `key`, or `default` when the key is absent. */
  function Stored(ctx: Doc, key: string, default: string): string {
    if key in ctx && ctx[key].Str? then ctx[key].s else default
  }

  /** A field that is present but not text. */
  predicate NotText(ctx: Doc, key: string) {
    key in ctx && !ctx[key].Str?
  }

  /** `user_data.get(key, default)` used as replacement text. */
  function FieldOr(ctx: Doc, key: string, default: string): Option<string> {
    if key in ctx then Text(ctx[key]) else Some(default)
  }

  /** The texts of a list, or `None` when one item is not text (`" ".join` raises). */
  function Texts(items: seq<Value>): (r: Option<seq<string>>)
    ensures r.Some? <==> forall i :: 0 <= i < |items| ==> items[i].Str?
    ensures r.Some? ==> |r.value| == |items| && forall i :: 0 <= i < |items| ==> r.value[i] == items[i].s
  {
    if items == [] then Some([])
    else if !items[0].Str? then None
    else
      match Texts(items[1..])
      case None => None
      case Some(rest) => Some([items[0].s] + rest)
  }

  function Min(a: nat, b: nat): nat {
    if a < b then a else b
  }

  /** The characters of a string, each as a one-character string. */
  function Chars(s: string): (r: seq<string>)
    ensures |r| == |s| && forall i :: 0 <= i < |s| ==> r[i] == [s[i]]
  {
    seq(|s|, i requires 0 <= i < |s| => [s[i]])
  }

  /** `" ".join(avances[:3]) if avances else "No hay avances registrados"`
      with `avances = user_data.get('avances', [])`. */
  function ProgressText(ctx: Doc): Option<string> {
    var v := Get(ctx, "avances", List([]));
    if !Truthy(v) then Some(NoProgress)
    else
      match v
      case Str(s) => Some(Join(" ", Chars(s[..Min(3, |s|)])))
      case Num(_) => None
      case List(items) =>
        match Texts(items[..Min(3, |items|)])
        case None => None
        case Some(ts) => Some(Join(" ", ts))
  }

  /** The slot names of the chain, in the order the service replaces them;
      `brief` only when the context has that key. */
  function SlotNames(ctx: Doc): seq<string> {
    ["nombre", "d1", "d2", "d3", "d4", "userid", "avances", "fecha"] + (if "brief" in ctx then ["brief"] else [])
  }

  lemma NamesAreSlotNames(ctx: Doc)
    ensures forall i :: 0 <= i < |SlotNames(ctx)| ==> SlotName(SlotNames(ctx)[i])
  {
  }

  /** The replacement texts, slot by slot, in the same order. */
  function SlotValues(ctx: Doc, today: Date): seq<Option<string>> {
    [FieldOr(ctx, "nombre", DefaultName), FieldOr(ctx, "d1", ""), FieldOr(ctx, "d2", ""),
     FieldOr(ctx, "d3", ""), FieldOr(ctx, "d4", ""), FieldOr(ctx, "userid", ""),
     ProgressText(ctx), Some(IsoDate(today))]
    + (if "brief" in ctx then [FieldOr(ctx, "brief", "")] else [])
  }

  /** The replacement chain for a context, or `None` when computing one of its
      texts raises. */
  function Bindings(ctx: Doc, today: Date): Option<seq<Binding>> {
    var names, values := SlotNames(ctx), SlotValues(ctx, today);
    if forall i :: 0 <= i < |values| ==> values[i].Some? then
      Some(seq(|values|, i requires 0 <= i < |values| => Binding(names[i], values[i].value)))
    else None
  }

  /** `_replace_variables_in_prompt`: the template with its slots filled, or the
      template unchanged when a replacement raises. */
  function Render(template: string, ctx: Doc, today: Date): string {
    match Bindings(ctx, today)
    case None => template
    case Some(bs) => ApplyAll(template, bs)
  }

  /** The first binding for `u` is the one at `i` when none before it names `u`. */
  lemma {:induction false} LookupFirst(bs: seq<Binding>, i: nat, u: string)
    requires i < |bs| && bs[i].name == u && forall j :: 0 <= j < i ==> bs[j].name != u
    ensures Lookup(bs, u) == bs[i].value
  {
    if i > 0 {
      assert forall j :: 0 <= j < i - 1 ==> bs[1..][j] == bs[j + 1];
      LookupFirst(bs[1..], i - 1, u);
    }
  }

  /** A name no binding mentions keeps its placeholder. */
  lemma {:induction false} LookupNone(bs: seq<Binding>, u: string)
    requires forall j :: 0 <= j < |bs| ==> bs[j].name != u
    ensures Lookup(bs, u) == Slot(u)
  {
    if bs != [] {
      assert forall j :: 0 <= j < |bs| - 1 ==> bs[1..][j] == bs[j + 1];
      LookupNone(bs[1..], u);
    }
  }

  /** The binding at position `i` pairs the `i`-th slot name with its text. */
  lemma BindingAt(ctx: Doc, today: Date, i: nat)
    requires Bindings(ctx, today).Some? && i < |SlotNames(ctx)|
    ensures SlotValues(ctx, today)[i].Some?
    ensures Bindings(ctx, today).value[i] == Binding(SlotNames(ctx)[i], SlotValues(ctx, today)[i].value)
  {
  }

  /** The profile slots receive the stored text, or the default when absent. */
  lemma ProfileSlots(ctx: Doc, today: Date)
    requires Bindings(ctx, today).Some?
    ensures var bs := Bindings(ctx, today).value;
      && Lookup(bs, "nombre") == Stored(ctx, "nombre", DefaultName)
      && Lookup(bs, "d1") == Stored(ctx, "d1", "")
      && Lookup(bs, "d2") == Stored(ctx, "d2", "")
  {
    var bs := Bindings(ctx, today).value;
    BindingAt(ctx, today, 0);
    BindingAt(ctx, today, 1);
    BindingAt(ctx, today, 2);
    LookupFirst(bs, 0, "nombre");
    LookupFirst(bs, 1, "d1");
    LookupFirst(bs, 2, "d2");
  }

  lemma MoreProfileSlots(ctx: Doc, today: Date)
    requires Bindings(ctx, today).Some?
    ensures var bs := Bindings(ctx, today).value;
      && Lookup(bs, "d3") == Stored(ctx, "d3", "")
      && Lookup(bs, "d4") == Stored(ctx, "d4", "")
      && Lookup(bs, "userid") == Stored(ctx, "userid", "")
  {
    var bs := Bindings(ctx, today).value;
    forall i | 0 <= i < 6 ensures bs[i].name == SlotNames(ctx)[i] {
      BindingAt(ctx, today, i);
    }
    BindingAt(ctx, today, 3);
    BindingAt(ctx, today, 4);
    BindingAt(ctx, today, 5);
    LookupFirst(bs, 3, "d3");
    LookupFirst(bs, 4, "d4");
    LookupFirst(bs, 5, "userid");
  }

  /** `{avances}` receives the progress text and `{fecha}` the date; `{brief}`
      the stored brief when the key exists, and otherwise it stays. */
  lemma DerivedSlots(ctx: Doc, today: Date)
    requires Bindings(ctx, today).Some?
    ensures var bs := Bindings(ctx, today).value;
      && ProgressText(ctx) == Some(Lookup(bs, "avances"))
      && Lookup(bs, "fecha") == IsoDate(today)
      && Lookup(bs, "brief") == (if "brief" in ctx then Stored(ctx, "brief", "") else Slot("brief"))
  {
    var bs := Bindings(ctx, today).value;
    forall i | 0 <= i < |bs| ensures bs[i].name == SlotNames(ctx)[i] {
      BindingAt(ctx, today, i);
    }
    BindingAt(ctx, today, 6);
    BindingAt(ctx, today, 7);
    LookupFirst(bs, 6, "avances");
    LookupFirst(bs, 7, "fecha");
    if "brief" in ctx {
      BindingAt(ctx, today, 8);
      LookupFirst(bs, 8, "brief");
    } else {
      LookupNone(bs, "brief");
    }
  }

  /** A placeholder the service does not know stays in the text. */
  lemma UnknownSlot(ctx: Doc, today: Date, u: string)
    requires Bindings(ctx, today).Some?
    requires u !in ["nombre", "d1", "d2", "d3", "d4", "userid", "avances", "fecha", "brief"]
    ensures Lookup(Bindings(ctx, today).value, u) == Slot(u)
  {
    var bs := Bindings(ctx, today).value;
    forall i | 0 <= i < |bs| ensures bs[i].name != u {
      BindingAt(ctx, today, i);
    }
    LookupNone(bs, u);
  }

  /** The chain fails, and the template comes back unchanged, exactly when one
      of the texts it needs is not a string: a non-text name, `d1`..`d4`,
      `userid` or `brief`, or progress that is neither falsy, text, nor a list
      whose first three items are text. */
  lemma RenderFallback(template: string, ctx: Doc, today: Date)
    ensures Bindings(ctx, today).None? <==>
      || NotText(ctx, "nombre") || NotText(ctx, "d1") || NotText(ctx, "d2") || NotText(ctx, "d3")
      || NotText(ctx, "d4") || NotText(ctx, "userid") || NotText(ctx, "brief")
      || ProgressText(ctx).None?
    ensures Bindings(ctx, today).None? ==> Render(template, ctx, today) == template
  {
    var values := SlotValues(ctx, today);
    assert values[0].None? <==> NotText(ctx, "nombre");
    assert values[1].None? <==> NotText(ctx, "d1");
    assert values[2].None? <==> NotText(ctx, "d2");
    assert values[3].None? <==> NotText(ctx, "d3");
    assert values[4].None? <==> NotText(ctx, "d4");
    assert values[5].None? <==> NotText(ctx, "userid");
    assert values[6].None? <==> ProgressText(ctx).None?;
    assert values[7].Some?;
    if "brief" in ctx {
      assert |values| == 9 && (values[8].None? <==> NotText(ctx, "brief"));
    } else {
      assert |values| == 8 && !NotText(ctx, "brief");
    }
    if Bindings(ctx, today).None? {
      var i :| 0 <= i < |values| && values[i].None?;
      assert i in {0, 1, 2, 3, 4, 5, 6, 8};
    }
  }

  /** A template `a{u}b` renders as `a`, the slot's text, then `b`, when the
      template's other text and the slot texts hold no `{`. */
  lemma RenderSlot(a: string, u: string, b: string, ctx: Doc, today: Date)
    requires '{' !in a && '{' !in b && SlotName(u)
    requires Bindings(ctx, today).Some?
    requires forall i :: 0 <= i < |Bindings(ctx, today).value| ==> '{' !in Bindings(ctx, today).value[i].value
    ensures Render(a + Slot(u) + b, ctx, today) == a + Lookup(Bindings(ctx, today).value, u) + b
  {
    var bs := Bindings(ctx, today).value;
    NamesAreSlotNames(ctx);
    forall i | 0 <= i < |bs| ensures SlotName(bs[i].name) {
      BindingAt(ctx, today, i);
    }
    FillSlot(a, u, b, bs);
  }

  /** A template `a{u1}t1{u2}t2…` with any number of slots renders as `a`
      followed by each slot's text and the plain text after it, when the
      plain text and the slot texts hold no `{`. */
  lemma RenderTemplate(a: string, names: seq<string>, texts: seq<string>, ctx: Doc, today: Date)
    requires '{' !in a && |names| == |texts|
    requires forall i :: 0 <= i < |names| ==> SlotName(names[i]) && '{' !in texts[i]
    requires Bindings(ctx, today).Some?
    requires forall i :: 0 <= i < |Bindings(ctx, today).value| ==> '{' !in Bindings(ctx, today).value[i].value
    ensures Render(a + Interleave(Slots(names), texts), ctx, today)
         == a + Interleave(Lookups(Bindings(ctx, today).value, names), texts)
  {
    var bs := Bindings(ctx, today).value;
    NamesAreSlotNames(ctx);
    forall i | 0 <= i < |bs| ensures SlotName(bs[i].name) {
      BindingAt(ctx, today, i);
    }
    ApplyAllTemplate(a, names, texts, bs);
  }

  /** The chain of any bindings with slot names and values free of `{` on a
      template whose slots are named `names`. */
  lemma ApplyAllTemplate(a: string, names: seq<string>, texts: seq<string>, bs: seq<Binding>)
    requires '{' !in a && |names| == |texts|
    requires forall i :: 0 <= i < |names| ==> SlotName(names[i]) && '{' !in texts[i]
    requires forall i :: 0 <= i < |bs| ==> SlotName(bs[i].name) && '{' !in bs[i].value
    ensures ApplyAll(a + Interleave(Slots(names), texts), bs) == a + Interleave(Lookups(bs, names), texts)
  {
    assert Fills(Slots(names), names, texts);
    ApplyAllSkipsPrefix(a, Interleave(Slots(names), texts), bs);
    ApplyAllInterleave(Slots(names), names, texts, bs);
    assert Resolve(Slots(names), names, bs) == Lookups(bs, names);
  }

  /** The replacements run in order on the text produced so far: when the
      stored name itself reads `{d1}`, the template `{nombre}` ends up as the
      text of `d1`. */
  lemma ChainRewritesEarlierValues(ctx: Doc, today: Date, v: string)
    requires Bindings(ctx, today).Some?
    requires Stored(ctx, "nombre", DefaultName) == Slot("d1")
    requires Stored(ctx, "d1", "") == v && '{' !in v
    ensures Render(Slot("nombre"), ctx, today) == v
  {
    var bs := Bindings(ctx, today).value;
    BindingAt(ctx, today, 0);
    BindingAt(ctx, today, 1);
    ProfileSlots(ctx, today);
    assert bs[0] == Binding("nombre", Slot("d1")) && bs[1] == Binding("d1", v);
    ReplaceLeading(Slot("nombre"), "", Slot("d1"));
    assert Slot("nombre") + "" == Slot("nombre") && Slot("d1") + "" == Slot("d1");
    ReplaceLeading(Slot("d1"), "", v);
    assert Replace("", Slot("d1"), v) == "";
    assert Replace(Slot("d1"), Slot("d1"), v) == v;
    assert ApplyAll(Slot("nombre"), bs) == ApplyAll(Slot("d1"), bs[1..]);
    assert bs[1..][0] == bs[1] && bs[1..][1..] == bs[2..];
    assert ApplyAll(Slot("d1"), bs[1..]) == ApplyAll(v, bs[2..]);
    ApplyAllNoSlots(v, bs[2..]);
  }

  // ---------------------------------------------------------------------------
  // The generate wrappers.

  /** The text model: what `generate_content(prompt).text` gives for a prompt.
      `Empty` is an answer whose text is empty; a response without candidates
      or parts, whose `.text` raises, is a `Fail` like any other exception. */
  type TextModel = string -> Outcome<string>

  /** The four prompts of the pipeline. */
  datatype Kind = Brief | RetoDia | ImagenPrompt | PodcastScript

  /** The name each wrapper puts in its error text. */
  function Label(k: Kind): string {
    match k
    case Brief => "brief"
    case RetoDia => "reto dia"
    case ImagenPrompt => "imagen prompt"
    case PodcastScript => "podcast script"
  }

  /** `generate_brief`, `generate_reto_dia`, `generate_imagen_prompt` and
      `generate_podcast_script`: render the kind's template, ask the model,
      strip its answer; an exception becomes an error text. */
  function Generate(model: TextModel, k: Kind, template: string, ctx: Doc, today: Date): string {
    match model(Render(template, ctx, today))
    case Ok(t) => Strip(t)
    case Empty => ""
    case Fail(msg) => "Error generating " + Label(k) + ": " + msg
  }

  /** A wrapper never raises: on a model failure it returns the error text,
      which is never empty; otherwise the stripped answer. The result is empty
      exactly when the model answered with nothing but whitespace. */
  lemma GenerateContract(model: TextModel, k: Kind, template: string, ctx: Doc, today: Date)
    ensures var out := model(Render(template, ctx, today));
      && (out.Fail? ==> Generate(model, k, template, ctx, today) == "Error generating " + Label(k) + ": " + out.msg)
      && (out.Ok? ==> Generate(model, k, template, ctx, today) == Strip(out.value))
      && (Generate(model, k, template, ctx, today) == "" <==> out.Empty? || (out.Ok? && Strip(out.value) == ""))
      && (out.Fail? || Strip(Generate(model, k, template, ctx, today)) == Generate(model, k, template, ctx, today))
  {
    var out := model(Render(template, ctx, today));
    if out.Ok? {
      StripIdempotent(out.value);
    }
  }
}
