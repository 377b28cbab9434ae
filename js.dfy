/** JavaScript values as the admin forms store them, the conversions the
    forms rely on (truthiness, `||`, `??`, `String(v)`, `FormData.append`),
    and the bracketed path keys of a multipart payload. */
module Js {

  datatype Option<T> = None | Some(value: T)

  /** A file picked in the browser: an opaque handle and its size in bytes. */
  datatype File = File(handle: nat, size: nat)

  /** The values a form field may hold. Numbers are integers in this model, or
      `NaN`, what `parseInt` gives for a text without digits. */
  datatype JsValue =
    | Str(s: string)
    | Num(n: int)
    | NaN
    | Bool(b: bool)
    | Null
    | Undefined
    | List(items: seq<string>)
    | FileVal(file: File)

  /** JavaScript truthiness. */
  predicate Truthy(v: JsValue)
  {
    match v
    case Str(s) => s != ""
    case Num(n) => n != 0
    case NaN => false
    case Bool(b) => b
    case Null => false
    case Undefined => false
    case List(_) => true
    case FileVal(_) => true
  }

  /** `v || fallback` */
  function Or(v: JsValue, fallback: JsValue): JsValue
  {
    if Truthy(v) then v else fallback
  }

  /** `cond ? 1 : 0` */
  function Flag(v: JsValue): (r: JsValue)
    ensures r == Num(1) <==> Truthy(v)
    ensures r == Num(0) <==> !Truthy(v)
  {
    Num(if Truthy(v) then 1 else 0)
  }

  /** `v ?? fallback` */
  function Nullish(v: JsValue, fallback: JsValue): JsValue
  {
    if v.Null? || v.Undefined? then fallback else v
  }

  /** Reading a property of a plain object: a missing key reads as `undefined`. */
  function Get(m: map<string, JsValue>, k: string): JsValue
  {
    if k in m then m[k] else Undefined
  }

  // ---------------------------------------------------------------------
  // Characters and strings

  predicate IsDigit(c: char)
  {
    '0' <= c <= '9'
  }

  predicate AllDigits(s: string)
  {
    forall i :: 0 <= i < |s| ==> IsDigit(s[i])
  }

  /** The characters JavaScript's `\s` class matches. */
  predicate IsSpace(c: char)
  {
    c == ' ' || c == '\t' || c == '\n' || c == '\r' || c == '\U{B}' || c == '\U{C}'
    || c == '\U{A0}' || c == '\U{1680}' || ('\U{2000}' <= c <= '\U{200A}')
    || c == '\U{2028}' || c == '\U{2029}' || c == '\U{202F}' || c == '\U{205F}'
    || c == '\U{3000}' || c == '\U{FEFF}'
  }

  predicate NoSpace(s: string)
  {
    forall i :: 0 <= i < |s| ==> !IsSpace(s[i])
  }

  function DigitChar(d: nat): (c: char)
    requires d < 10
    ensures IsDigit(c)
  {
    "0123456789"[d]
  }

  /** Decimal notation of a natural number, as `String(n)` writes it. */
  function NatToString(n: nat): (r: string)
    ensures 1 <= |r| && AllDigits(r)
    ensures n < 10 <==> |r| == 1
    decreases n
  {
    if n < 10 then [DigitChar(n)] else NatToString(n / 10) + [DigitChar(n % 10)]
  }

  lemma DigitCharInjective(a: nat, b: nat)
    requires a < 10 && b < 10 && DigitChar(a) == DigitChar(b)
    ensures a == b
  {
  }

  /** Different numbers are written differently: what makes `sections[i]` keys unique. */
  lemma {:induction false} NatToStringInjective(a: nat, b: nat)
    requires NatToString(a) == NatToString(b)
    ensures a == b
    decreases a
  {
    var ra, rb := NatToString(a), NatToString(b);
    if a < 10 {
      DigitCharInjective(a, b);
    } else {
      assert b >= 10;
      assert ra[|ra| - 1] == DigitChar(a % 10) && rb[|rb| - 1] == DigitChar(b % 10);
      DigitCharInjective(a % 10, b % 10);
      assert NatToString(a / 10) == ra[..|ra| - 1] == rb[..|rb| - 1] == NatToString(b / 10);
      NatToStringInjective(a / 10, b / 10);
    }
  }

  function IntToString(n: int): (r: string)
    ensures 1 <= |r| && (r[0] == '-' <==> n < 0)
  {
    if n < 0 then "-" + NatToString(-n) else NatToString(n)
  }

  /** `n.toString()` tells integers apart, negative ones included. */
  lemma IntToStringInjective(a: int, b: int)
    requires IntToString(a) == IntToString(b)
    ensures a == b
  {
    var s := IntToString(a);
    if a < 0 {
      assert NatToString(-a) == s[1..] == NatToString(-b);
      NatToStringInjective(-a, -b);
    } else {
      NatToStringInjective(a, b);
    }
  }

  /** `Array.prototype.join(sep)` on an array of strings. */
  function Join(xs: seq<string>, sep: string): string
    decreases |xs|
  {
    if |xs| == 0 then ""
    else if |xs| == 1 then xs[0]
    else Join(xs[..|xs| - 1], sep) + sep + xs[|xs| - 1]
  }

  /** `String(v)`: the text a value turns into in a template literal or a form field. */
  function ToText(v: JsValue): string
  {
    match v
    case Str(s) => s
    case Num(n) => IntToString(n)
    case NaN => "NaN"
    case Bool(b) => if b then "true" else "false"
    case Null => "null"
    case Undefined => "undefined"
    case List(xs) => Join(xs, ",")
    case FileVal(_) => "[object File]"
  }

  /** ASCII lower-casing, standing for `toLowerCase()`. */
  function LowerChar(c: char): char
  {
    if 'A' <= c <= 'Z' then (c as int + 32) as char else c
  }

  function Lower(s: string): (r: string)
    ensures |r| == |s|
  {
    seq(|s|, i requires 0 <= i < |s| => LowerChar(s[i]))
  }

  /** `hay.includes(needle)` on strings. */
  predicate Contains(hay: string, needle: string)
    decreases |hay|
  {
    needle <= hay || (|hay| > 0 && Contains(hay[1..], needle))
  }

  /** Case-insensitive substring test used by every search box. */
  predicate Matches(text: string, query: string)
  {
    Contains(Lower(text), Lower(query))
  }

  lemma {:induction false} EmptyQueryMatches(text: string)
    ensures Matches(text, "")
  {
    assert [] <= Lower(text);
  }

  // ---------------------------------------------------------------------
  // Sequences

  /** `Array.prototype.filter`. */
  function Filter<T(!new)>(s: seq<T>, p: T -> bool): (r: seq<T>)
    ensures |r| <= |s|
    ensures forall x :: x in r <==> x in s && p(x)
    ensures IsSubsequence(r, s)
    decreases |s|
  {
    if s == [] then []
    else if p(s[0]) then [s[0]] + Filter(s[1..], p)
    else Filter(s[1..], p)
  }

  /** `r` is `s` with some elements left out and the rest kept in order. */
  ghost predicate IsSubsequence<T>(r: seq<T>, s: seq<T>)
    decreases |s|
  {
    r == [] || (s != [] && ((r[0] == s[0] && IsSubsequence(r[1..], s[1..])) || IsSubsequence(r, s[1..])))
  }

  lemma {:induction false} FilterAll<T(!new)>(s: seq<T>, p: T -> bool)
    requires forall x :: x in s ==> p(x)
    ensures Filter(s, p) == s
    decreases |s|
  {
    if s != [] {
      assert forall x :: x in s[1..] ==> x in s;
      FilterAll(s[1..], p);
    }
  }

  /** Filtering a concatenation filters each part, in order. */
  lemma {:induction false} FilterAppend<T(!new)>(a: seq<T>, b: seq<T>, p: T -> bool)
    ensures Filter(a + b, p) == Filter(a, p) + Filter(b, p)
    decreases |a|
  {
    if a == [] {
      assert a + b == b;
    } else {
      assert (a + b)[0] == a[0];
      assert (a + b)[1..] == a[1..] + b;
      FilterAppend(a[1..], b, p);
    }
  }

  /** `s.filter((_, i) => i !== index)` */
  function WithoutIndex<T>(s: seq<T>, index: int): (r: seq<T>)
    ensures 0 <= index < |s| ==>
              && |r| == |s| - 1
              && (forall i :: 0 <= i < index ==> r[i] == s[i])
              && (forall i :: index <= i < |r| ==> r[i] == s[i + 1])
    ensures !(0 <= index < |s|) ==> r == s
    decreases |s|
  {
    if s == [] then []
    else
      var rest := WithoutIndex(s[1..], index - 1);
      if index == 0 then rest else [s[0]] + rest
  }

  /** Removing the element just pushed gives back the sequence as it was. */
  lemma PushThenRemove<T>(s: seq<T>, x: T)
    ensures WithoutIndex(s + [x], |s|) == s
  {
    var r := WithoutIndex(s + [x], |s|);
    assert |r| == |s|;
  }

  // ---------------------------------------------------------------------
  // Multipart payloads

  /** A value in a `FormData` buffer: text, or a file sent as is. */
  datatype FormValue = Text(text: string) | Blob(file: File)

  /** The key of a payload entry, kept as its root name and bracketed segments:
      `sections[0][title]` is `Path("sections", ["0", "title"])`, `images[]` is
      `Path("images", [""])` and `title` is `Path("title", [])`. The text the
      buffer receives is `KeyText`; `KeyTextInjective` shows that for plain
      paths two entries share a key text exactly when they share a path. */
  datatype Path = Path(root: string, segs: seq<string>)

  function Named(name: string): Path
  {
    Path(name, [])
  }

  datatype Entry = Entry(path: Path, value: FormValue)

  /** What `formData.append(key, v)` stores for `v`: files stay files, everything else becomes `String(v)`. */
  function FormValueOf(v: JsValue): FormValue
  {
    if v.FileVal? then Blob(v.file) else Text(ToText(v))
  }

  function Append(path: Path, v: JsValue): Entry
  {
    Entry(path, FormValueOf(v))
  }

  /** The entries of a payload that carry the given key, in order. */
  function WithKey(es: seq<Entry>, p: Path): (r: seq<Entry>)
    ensures forall e :: e in r ==> e in es && e.path == p
    decreases |es|
  {
    if es == [] then []
    else (if es[0].path == p then [es[0]] else []) + WithKey(es[1..], p)
  }

  lemma {:induction false} WithKeyAppend(a: seq<Entry>, b: seq<Entry>, p: Path)
    ensures WithKey(a + b, p) == WithKey(a, p) + WithKey(b, p)
    decreases |a|
  {
    if a != [] {
      assert (a + b)[0] == a[0] && (a + b)[1..] == a[1..] + b;
      WithKeyAppend(a[1..], b, p);
    } else {
      assert a + b == b;
    }
  }

  lemma {:induction false} WithKeyAbsent(es: seq<Entry>, p: Path)
    requires forall i :: 0 <= i < |es| ==> es[i].path != p
    ensures WithKey(es, p) == []
    decreases |es|
  {
    if es != [] {
      WithKeyAbsent(es[1..], p);
    }
  }

  lemma {:induction false} WithKeyAll(es: seq<Entry>, p: Path)
    requires forall i :: 0 <= i < |es| ==> es[i].path == p
    ensures WithKey(es, p) == es
    decreases |es|
  {
    if es != [] {
      WithKeyAll(es[1..], p);
      assert es == [es[0]] + es[1..];
    }
  }

  /** One `append` a handler may make: the field name under a common key prefix,
      whether the append is made, and the value appended. */
  datatype Field = Field(name: string, sent: bool, value: JsValue)

  predicate DistinctNames(fs: seq<Field>)
  {
    forall a, b :: 0 <= a < b < |fs| ==> fs[a].name != fs[b].name
  }

  /** The appends a list of fields makes under `root[prefix...]`, in order. */
  function Emit(root: string, prefix: seq<string>, fs: seq<Field>): seq<Entry>
    decreases |fs|
  {
    if fs == [] then []
    else (if fs[0].sent then [Append(Path(root, prefix + [fs[0].name]), fs[0].value)] else [])
         + Emit(root, prefix, fs[1..])
  }

  /** Every append of `Emit` carries a key one segment below the prefix. */
  lemma {:induction false} EmitShape(root: string, prefix: seq<string>, fs: seq<Field>)
    ensures forall j :: 0 <= j < |Emit(root, prefix, fs)| ==>
      var p := Emit(root, prefix, fs)[j].path;
      p.root == root && |p.segs| == |prefix| + 1 && p.segs[..|prefix|] == prefix
    decreases |fs|
  {
    if fs != [] {
      EmitShape(root, prefix, fs[1..]);
      assert (prefix + [fs[0].name])[..|prefix|] == prefix;
    }
  }

  /** A field name the list does not hold has no append. */
  lemma {:induction false} EmitAbsent(root: string, prefix: seq<string>, fs: seq<Field>, name: string)
    requires forall m :: 0 <= m < |fs| ==> fs[m].name != name
    ensures WithKey(Emit(root, prefix, fs), Path(root, prefix + [name])) == []
    decreases |fs|
  {
    if fs != [] {
      var t := Path(root, prefix + [name]);
      var head := if fs[0].sent then [Append(Path(root, prefix + [fs[0].name]), fs[0].value)] else [];
      assert (prefix + [fs[0].name])[|prefix|] == fs[0].name && (prefix + [name])[|prefix|] == name;
      WithKeyAbsent(head, t);
      EmitAbsent(root, prefix, fs[1..], name);
      WithKeyAppend(head, Emit(root, prefix, fs[1..]), t);
    }
  }

  /** Among fields with distinct names, the key of field `k` carries that field's append
      when it is made, and nothing otherwise. */
  lemma {:induction false} EmitLookup(root: string, prefix: seq<string>, fs: seq<Field>, k: nat)
    requires k < |fs| && DistinctNames(fs)
    ensures WithKey(Emit(root, prefix, fs), Path(root, prefix + [fs[k].name]))
            == if fs[k].sent then [Append(Path(root, prefix + [fs[k].name]), fs[k].value)] else []
    decreases |fs|
  {
    var t := Path(root, prefix + [fs[k].name]);
    var head := if fs[0].sent then [Append(Path(root, prefix + [fs[0].name]), fs[0].value)] else [];
    WithKeyAppend(head, Emit(root, prefix, fs[1..]), t);
    if k == 0 {
      EmitAbsent(root, prefix, fs[1..], fs[0].name);
    } else {
      assert (prefix + [fs[0].name])[|prefix|] == fs[0].name && (prefix + [fs[k].name])[|prefix|] == fs[k].name;
      WithKeyAbsent(head, t);
      EmitLookup(root, prefix, fs[1..], k - 1);
    }
  }

  /** `Emit` distributes over concatenation: a loop may append the fields one at a time. */
  lemma {:induction false} EmitAppend(root: string, prefix: seq<string>, a: seq<Field>, b: seq<Field>)
    ensures Emit(root, prefix, a + b) == Emit(root, prefix, a) + Emit(root, prefix, b)
    decreases |a|
  {
    if a == [] {
      assert a + b == b;
    } else {
      assert (a + b)[0] == a[0] && (a + b)[1..] == a[1..] + b;
      EmitAppend(root, prefix, a[1..], b);
    }
  }

  /** The appends a list of fields makes under top-level keys, in order. */
  function EmitNamed(fs: seq<Field>): seq<Entry>
    decreases |fs|
  {
    if fs == [] then []
    else (if fs[0].sent then [Append(Named(fs[0].name), fs[0].value)] else []) + EmitNamed(fs[1..])
  }

  /** `EmitNamed` distributes over concatenation. */
  lemma {:induction false} EmitNamedAppend(a: seq<Field>, b: seq<Field>)
    ensures EmitNamed(a + b) == EmitNamed(a) + EmitNamed(b)
    decreases |a|
  {
    if a == [] {
      assert a + b == b;
    } else {
      assert (a + b)[0] == a[0] && (a + b)[1..] == a[1..] + b;
      EmitNamedAppend(a[1..], b);
    }
  }

  /** One field at a time: the appends from field `k` on. */
  lemma EmitNamedStep(fs: seq<Field>, k: nat)
    requires k < |fs|
    ensures EmitNamed(fs[k..])
            == (if fs[k].sent then [Append(Named(fs[k].name), fs[k].value)] else []) + EmitNamed(fs[k + 1..])
  {
    assert fs[k..][1..] == fs[k + 1..];
  }

  /** Every append of `EmitNamed` carries a key without brackets. */
  lemma {:induction false} EmitNamedShape(fs: seq<Field>)
    ensures forall j :: 0 <= j < |EmitNamed(fs)| ==> EmitNamed(fs)[j].path.segs == []
    decreases |fs|
  {
    if fs != [] {
      EmitNamedShape(fs[1..]);
    }
  }

  lemma {:induction false} EmitNamedAbsent(fs: seq<Field>, name: string)
    requires forall m :: 0 <= m < |fs| ==> fs[m].name != name
    ensures WithKey(EmitNamed(fs), Named(name)) == []
    decreases |fs|
  {
    if fs != [] {
      var head := if fs[0].sent then [Append(Named(fs[0].name), fs[0].value)] else [];
      WithKeyAbsent(head, Named(name));
      EmitNamedAbsent(fs[1..], name);
      WithKeyAppend(head, EmitNamed(fs[1..]), Named(name));
    }
  }

  /** Among fields with distinct names, the key of field `k` carries that field's append
      when it is made, and nothing otherwise. */
  lemma {:induction false} EmitNamedLookup(fs: seq<Field>, k: nat)
    requires k < |fs| && DistinctNames(fs)
    ensures WithKey(EmitNamed(fs), Named(fs[k].name))
            == if fs[k].sent then [Append(Named(fs[k].name), fs[k].value)] else []
    decreases |fs|
  {
    var t := Named(fs[k].name);
    var head := if fs[0].sent then [Append(Named(fs[0].name), fs[0].value)] else [];
    WithKeyAppend(head, EmitNamed(fs[1..]), t);
    if k == 0 {
      EmitNamedAbsent(fs[1..], fs[0].name);
    } else {
      WithKeyAbsent(head, t);
      EmitNamedLookup(fs[1..], k - 1);
    }
  }

  /** One more field: a loop over fields may append them one at a time. */
  lemma EmitSnoc(root: string, prefix: seq<string>, fs: seq<Field>, f: Field)
    ensures Emit(root, prefix, fs + [f])
            == Emit(root, prefix, fs) + (if f.sent then [Append(Path(root, prefix + [f.name]), f.value)] else [])
  {
    EmitAppend(root, prefix, fs, [f]);
    assert [f][1..] == [];
  }

  /** Two field lists that make the same appends with the same wire values emit the same entries,
      whatever values they hold before conversion. */
  lemma {:induction false} EmitSameWire(root: string, prefix: seq<string>, a: seq<Field>, b: seq<Field>)
    requires |a| == |b|
    requires forall k :: 0 <= k < |a| ==>
      a[k].name == b[k].name && a[k].sent == b[k].sent && FormValueOf(a[k].value) == FormValueOf(b[k].value)
    ensures Emit(root, prefix, a) == Emit(root, prefix, b)
    decreases |a|
  {
    if a != [] {
      EmitSameWire(root, prefix, a[1..], b[1..]);
    }
  }

  /** Top-level keys are bracket-free: looking one up past the top-level appends finds nothing. */
  lemma HeadLookup(head: seq<Field>, body: seq<Entry>, name: string)
    requires forall j :: 0 <= j < |body| ==> body[j].path.segs != []
    ensures WithKey(EmitNamed(head) + body, Named(name)) == WithKey(EmitNamed(head), Named(name))
  {
    WithKeyAppend(EmitNamed(head), body, Named(name));
    WithKeyAbsent(body, Named(name));
  }

  /** In a payload made of top-level appends followed by bracketed parts, a
      top-level field with a distinct name is found among the top-level appends. */
  lemma AssembledHeadLookup(head: seq<Field>, parts: seq<seq<Entry>>, k: nat)
    requires k < |head| && DistinctNames(head)
    requires forall m, j :: 0 <= m < |parts| && 0 <= j < |parts[m]| ==> parts[m][j].path.segs != []
    ensures WithKey(EmitNamed(head) + Flatten(parts), Named(head[k].name))
            == if head[k].sent then [Append(Named(head[k].name), head[k].value)] else []
  {
    FlattenAll(parts, (e: Entry) => e.path.segs != []);
    HeadLookup(head, Flatten(parts), head[k].name);
    EmitNamedLookup(head, k);
  }

  /** The same for a name the top-level appends do not hold: nothing. */
  lemma AssembledHeadAbsent(head: seq<Field>, parts: seq<seq<Entry>>, name: string)
    requires forall m :: 0 <= m < |head| ==> head[m].name != name
    requires forall m, j :: 0 <= m < |parts| && 0 <= j < |parts[m]| ==> parts[m][j].path.segs != []
    ensures WithKey(EmitNamed(head) + Flatten(parts), Named(name)) == []
  {
    FlattenAll(parts, (e: Entry) => e.path.segs != []);
    HeadLookup(head, Flatten(parts), name);
    EmitNamedAbsent(head, name);
  }

  /** In the same kind of payload, a bracketed key under root `roots[m]` is found in part `m`. */
  lemma AssembledPartLookup(head: seq<Field>, parts: seq<seq<Entry>>, roots: seq<string>, t: Path, m: nat)
    requires |parts| == |roots| && m < |parts| && t.root == roots[m] && t.segs != []
    requires forall k, j :: 0 <= k < |parts| && 0 <= j < |parts[k]| ==> parts[k][j].path.root == roots[k]
    requires forall a, b :: 0 <= a < b < |roots| ==> roots[a] != roots[b]
    ensures WithKey(EmitNamed(head) + Flatten(parts), t) == WithKey(parts[m], t)
  {
    BodyLookup(head, Flatten(parts), t);
    RootLookup(parts, roots, t, m);
  }

  /** A bracketed key is never one of the top-level appends. */
  lemma BodyLookup(head: seq<Field>, body: seq<Entry>, t: Path)
    requires t.segs != []
    ensures WithKey(EmitNamed(head) + body, t) == WithKey(body, t)
  {
    WithKeyAppend(EmitNamed(head), body, t);
    EmitNamedShape(head);
    WithKeyAbsent(EmitNamed(head), t);
  }

  /** The entries of consecutive `forEach` passes, one block per element, in order. */
  function Flatten<X>(bs: seq<seq<X>>): seq<X>
    decreases |bs|
  {
    if bs == [] then [] else Flatten(bs[..|bs| - 1]) + bs[|bs| - 1]
  }

  lemma {:induction false} FlattenSnoc<X>(bs: seq<seq<X>>, i: nat)
    requires i < |bs|
    ensures Flatten(bs[..i + 1]) == Flatten(bs[..i]) + bs[i]
  {
    assert bs[..i + 1][..i] == bs[..i];
  }

  /** A property of every entry of every block holds of every entry of the flattened payload. */
  lemma {:induction false} FlattenAll(bs: seq<seq<Entry>>, P: Entry -> bool)
    requires forall k, j :: 0 <= k < |bs| && 0 <= j < |bs[k]| ==> P(bs[k][j])
    ensures forall j :: 0 <= j < |Flatten(bs)| ==> P(Flatten(bs)[j])
    decreases |bs|
  {
    if bs != [] {
      var n := |bs| - 1;
      var pre := bs[..n];
      FlattenAll(pre, P);
      assert forall k :: 0 <= k < n ==> pre[k] == bs[k];
      var f := Flatten(bs);
      assert f == Flatten(pre) + bs[n];
      forall j | 0 <= j < |f|
        ensures P(f[j])
      {
        if j < |Flatten(pre)| {
          assert f[j] == Flatten(pre)[j];
        } else {
          assert f[j] == bs[n][j - |Flatten(pre)|];
        }
      }
    }
  }

  /** When every entry of block k carries `k` at segment `pos`, looking a key up
      in the flattened payload looks it up in the one block its index names. */
  lemma {:induction false} TaggedLookup(bs: seq<seq<Entry>>, pos: nat, t: Path, i: nat)
    requires forall k, j :: 0 <= k < |bs| && 0 <= j < |bs[k]| ==>
               |bs[k][j].path.segs| > pos && bs[k][j].path.segs[pos] == NatToString(k)
    requires |t.segs| > pos && t.segs[pos] == NatToString(i)
    ensures WithKey(Flatten(bs), t) == if i < |bs| then WithKey(bs[i], t) else []
    decreases |bs|
  {
    if bs != [] {
      var n := |bs| - 1;
      var pre := bs[..n];
      assert forall k :: 0 <= k < n ==> pre[k] == bs[k];
      TaggedLookup(pre, pos, t, i);
      WithKeyAppend(Flatten(pre), bs[n], t);
      if n != i {
        NatToStringEq(n, i);
        WithKeyAbsent(bs[n], t);
      }
    }
  }

  /** When every entry of part `k` carries root `roots[k]` and the roots are distinct,
      looking a key up in the flattened payload looks it up in the one part its root names. */
  lemma {:induction false} RootLookup(parts: seq<seq<Entry>>, roots: seq<string>, t: Path, m: nat)
    requires |parts| == |roots| && m < |parts| && t.root == roots[m]
    requires forall k, j :: 0 <= k < |parts| && 0 <= j < |parts[k]| ==> parts[k][j].path.root == roots[k]
    requires forall a, b :: 0 <= a < b < |roots| ==> roots[a] != roots[b]
    ensures WithKey(Flatten(parts), t) == WithKey(parts[m], t)
    decreases |parts|
  {
    var n := |parts| - 1;
    var pre := parts[..n];
    assert forall k :: 0 <= k < n ==> pre[k] == parts[k];
    WithKeyAppend(Flatten(pre), parts[n], t);
    if m == n {
      FlattenAll(pre, (e: Entry) => e.path.root != roots[n]);
      WithKeyAbsent(Flatten(pre), t);
    } else {
      RootLookup(pre, roots[..n], t, m);
      WithKeyAbsent(parts[n], t);
    }
  }

  /** `root[s1][s2]...`: the bracketed path key of a nested field. */
  function Segments(segs: seq<string>): string
    decreases |segs|
  {
    if segs == [] then "" else "[" + segs[0] + "]" + Segments(segs[1..])
  }

  function PathKey(root: string, segs: seq<string>): string
  {
    root + Segments(segs)
  }

  /** A root without '[' and segments without ']' can be read back unambiguously. */
  predicate PlainPath(root: string, segs: seq<string>)
  {
    '[' !in root && forall i :: 0 <= i < |segs| ==> ']' !in segs[i]
  }

  lemma {:induction false} SplitAt(c: char, a: string, x: string, b: string, y: string)
    requires c !in a && c !in b
    requires a + [c] + x == b + [c] + y
    ensures a == b && x == y
  {
    var l, r := a + [c] + x, b + [c] + y;
    assert |a| == |b| by {
      assert forall i :: 0 <= i < |a| ==> l[i] != c;
      assert forall i :: 0 <= i < |b| ==> r[i] != c;
      assert l[|a|] == c && r[|b|] == c;
    }
    assert a == l[..|a|] && b == r[..|b|];
    assert x == l[|a| + 1..] && y == r[|b| + 1..];
  }

  lemma {:induction false} SegmentsInjective(s1: seq<string>, s2: seq<string>)
    requires PlainPath("", s1) && PlainPath("", s2)
    requires Segments(s1) == Segments(s2)
    ensures s1 == s2
    decreases |s1|
  {
    if s1 != [] && s2 != [] {
      var x1, x2 := Segments(s1[1..]), Segments(s2[1..]);
      assert Segments(s1) == "[" + (s1[0] + "]" + x1);
      assert Segments(s2) == "[" + (s2[0] + "]" + x2);
      assert s1[0] + "]" + x1 == Segments(s1)[1..] == Segments(s2)[1..] == s2[0] + "]" + x2;
      SplitAt(']', s1[0], x1, s2[0], x2);
      assert PlainPath("", s1[1..]) && PlainPath("", s2[1..]);
      SegmentsInjective(s1[1..], s2[1..]);
      assert s1 == [s1[0]] + s1[1..] && s2 == [s2[0]] + s2[1..];
    }
  }

  lemma BracketInPath(r: string, s: seq<string>)
    requires '[' !in r
    ensures ('[' in PathKey(r, s)) == (s != [])
  {
    if s != [] {
      assert PathKey(r, s)[|r|] == '[';
    } else {
      assert PathKey(r, s) == r;
    }
  }

  /** Two plain path keys are equal only when their roots and segments are. */
  lemma {:induction false} PathKeyInjective(r1: string, s1: seq<string>, r2: string, s2: seq<string>)
    requires PlainPath(r1, s1) && PlainPath(r2, s2)
    requires PathKey(r1, s1) == PathKey(r2, s2)
    ensures r1 == r2 && s1 == s2
  {
    var k := PathKey(r1, s1);
    if s1 == [] || s2 == [] {
      BracketInPath(r1, s1);
      BracketInPath(r2, s2);
      assert s1 == [] && s2 == [];
      assert r1 + Segments([]) == r1 && r2 + Segments([]) == r2;
    } else {
      var x1, x2 := s1[0] + "]" + Segments(s1[1..]), s2[0] + "]" + Segments(s2[1..]);
      assert k == r1 + ['['] + x1 && k == r2 + ['['] + x2;
      SplitAt('[', r1, x1, r2, x2);
      assert Segments(s1) == "[" + x1 && Segments(s2) == "[" + x2;
      SegmentsInjective(s1, s2);
    }
  }

  /** Numbers written in decimal are equal exactly when the numbers are. */
  lemma NatToStringEq(a: nat, b: nat)
    ensures (NatToString(a) == NatToString(b)) == (a == b)
  {
    if NatToString(a) == NatToString(b) {
      NatToStringInjective(a, b);
    }
  }

  /** The key text of an entry, as passed to `formData.append`. */
  function KeyText(p: Path): string
  {
    PathKey(p.root, p.segs)
  }

  predicate Plain(p: Path)
  {
    PlainPath(p.root, p.segs)
  }

  /** For plain paths the key text determines the path. */
  lemma KeyTextInjective(p: Path, q: Path)
    requires Plain(p) && Plain(q)
    ensures (KeyText(p) == KeyText(q)) == (p == q)
  {
    if KeyText(p) == KeyText(q) {
      PathKeyInjective(p.root, p.segs, q.root, q.segs);
    }
  }

  /** The entries whose key text is that of `p` are the entries whose path is `p`. */
  lemma {:induction false} WithKeyText(es: seq<Entry>, p: Path)
    requires Plain(p) && forall i :: 0 <= i < |es| ==> Plain(es[i].path)
    ensures forall i :: 0 <= i < |es| ==> (KeyText(es[i].path) == KeyText(p) <==> es[i].path == p)
  {
    forall i | 0 <= i < |es|
      ensures KeyText(es[i].path) == KeyText(p) <==> es[i].path == p
    {
      KeyTextInjective(es[i].path, p);
    }
  }

  /** An index as a path segment never contains ']'. */
  lemma IndexSegment(n: nat)
    ensures ']' !in NatToString(n)
  {
    var s := NatToString(n);
    assert forall i :: 0 <= i < |s| ==> s[i] != ']';
  }
}
