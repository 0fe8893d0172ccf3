/** JSON values, the canonical form behind ledger fingerprints, and its text. Object fields are
    kept in the order they were written, which is what the canonical form must forget. Numbers
    are whole. */
module Json {
  import opened Text

  datatype Json =
    | Null
    | Bool(b: bool)
    | Num(n: int)
    | Str(s: string)
    | Date(iso: string)
    | Arr(items: Items)
    | Obj(fields: Fields)

  datatype Items = NoItems | Item(head: Json, tail: Items)

  datatype Fields = NoFields | Field(key: string, value: Json, rest: Fields)

  // ---------------------------------------------------------------- order of keys

  /** The order of Array.sort on strings: character by character, a prefix first. */
  predicate Less(a: string, b: string) {
    b != [] && (a == [] || a[0] < b[0] || (a[0] == b[0] && Less(a[1..], b[1..])))
  }

  lemma {:induction false} LessTransitive(a: string, b: string, c: string)
    requires Less(a, b) && Less(b, c)
    ensures Less(a, c)
  {
    if a != [] && a[0] == b[0] == c[0] {
      LessTransitive(a[1..], b[1..], c[1..]);
    }
  }

  lemma {:induction false} LessTotal(a: string, b: string)
    ensures Less(a, b) || a == b || Less(b, a)
    ensures !(Less(a, b) && Less(b, a)) && !Less(a, a)
  {
    if a != [] && b != [] {
      LessTotal(a[1..], b[1..]);
      assert a == [a[0]] + a[1..] && b == [b[0]] + b[1..];
    }
    if a != [] {
      LessTotal(a[1..], a[1..]);
    }
  }

  // ---------------------------------------------------------------- fields

  function Keys(f: Fields): set<string> {
    match f
    case NoFields => {}
    case Field(k, _, rest) => {k} + Keys(rest)
  }

  function Get(f: Fields, k: string): Json
    requires k in Keys(f)
  {
    if f.key == k then f.value else Get(f.rest, k)
  }

  predicate DistinctKeys(f: Fields) {
    match f
    case NoFields => true
    case Field(k, _, rest) => k !in Keys(rest) && DistinctKeys(rest)
  }

  predicate SortedKeys(f: Fields) {
    match f
    case NoFields => true
    case Field(k, _, rest) => (rest.Field? ==> Less(k, rest.key)) && SortedKeys(rest)
  }

  /** Every object inside has each key once: what a JavaScript object is. */
  predicate Valid(v: Json) {
    match v
    case Arr(items) => ValidItems(items)
    case Obj(fields) => DistinctKeys(fields) && ValidFields(fields)
    case _ => true
  }

  predicate ValidItems(items: Items) {
    items.Item? ==> Valid(items.head) && ValidItems(items.tail)
  }

  predicate ValidFields(f: Fields) {
    f.Field? ==> Valid(f.value) && ValidFields(f.rest)
  }

  // ---------------------------------------------------------------- canonical form

  function Insert(k: string, v: Json, f: Fields): Fields {
    if f.Field? && Less(f.key, k) then Field(f.key, f.value, Insert(k, v, f.rest)) else Field(k, v, f)
  }

  function Canonicalize(v: Json): Json {
    match v
    case Date(iso) => Str(iso)
    case Arr(items) => Arr(CanonicalItems(items))
    case Obj(fields) => Obj(CanonicalFields(fields))
    case _ => v
  }

  function CanonicalItems(items: Items): Items {
    match items
    case NoItems => NoItems
    case Item(head, tail) => Item(Canonicalize(head), CanonicalItems(tail))
  }

  function CanonicalFields(f: Fields): Fields {
    match f
    case NoFields => NoFields
    case Field(k, v, rest) => Insert(k, Canonicalize(v), CanonicalFields(rest))
  }

  lemma {:induction false} InsertIs(k: string, v: Json, f: Fields)
    requires k !in Keys(f) && SortedKeys(f)
    ensures Keys(Insert(k, v, f)) == Keys(f) + {k}
    ensures Get(Insert(k, v, f), k) == v
    ensures forall j :: j in Keys(f) ==> Get(Insert(k, v, f), j) == Get(f, j)
    ensures SortedKeys(Insert(k, v, f))
  {
    if f.Field? && Less(f.key, k) {
      InsertIs(k, v, f.rest);
    } else if f.Field? {
      LessTotal(f.key, k);
    }
  }

  lemma {:induction false} CanonicalFieldsAre(f: Fields)
    requires DistinctKeys(f)
    ensures Keys(CanonicalFields(f)) == Keys(f) && SortedKeys(CanonicalFields(f))
    ensures forall k :: k in Keys(f) ==> Get(CanonicalFields(f), k) == Canonicalize(Get(f, k))
  {
    if f.Field? {
      CanonicalFieldsAre(f.rest);
      InsertIs(f.key, Canonicalize(f.value), CanonicalFields(f.rest));
    }
  }

  lemma {:induction false} FirstKeyIsLeast(f: Fields, k: string)
    requires f.Field? && SortedKeys(f) && k in Keys(f)
    ensures k == f.key || Less(f.key, k)
  {
    if k != f.key {
      FirstKeyIsLeast(f.rest, k);
      if k != f.rest.key {
        LessTransitive(f.key, f.rest.key, k);
      }
    }
  }

  lemma FirstKeyOnce(f: Fields)
    requires f.Field? && SortedKeys(f)
    ensures f.key !in Keys(f.rest)
  {
    if f.key in Keys(f.rest) {
      FirstKeyIsLeast(f.rest, f.key);
      LessTotal(f.key, f.rest.key);
    }
  }

  lemma NoKeysNoFields(f: Fields)
    ensures Keys(f) == {} <==> f.NoFields?
  {
    if f.Field? {
      assert f.key in Keys(f);
    }
  }

  /** A sorted field list is determined by its keys and what each key maps to. */
  lemma {:induction false} SortedFieldsEqual(f: Fields, g: Fields)
    requires SortedKeys(f) && SortedKeys(g) && Keys(f) == Keys(g)
    requires forall k :: k in Keys(f) ==> Get(f, k) == Get(g, k)
    ensures f == g
  {
    if f.Field? {
      assert f.key in Keys(g);
      assert g.key in Keys(f);
      FirstKeyIsLeast(f, g.key);
      FirstKeyIsLeast(g, f.key);
      LessTotal(f.key, g.key);
      FirstKeyOnce(f);
      FirstKeyOnce(g);
      assert Keys(f.rest) == Keys(f) - {f.key} == Keys(g.rest);
      assert forall k :: k in Keys(f.rest) ==> Get(f.rest, k) == Get(f, k) && Get(g.rest, k) == Get(g, k);
      assert Get(f, f.key) == f.value && Get(g, g.key) == g.value;
      SortedFieldsEqual(f.rest, g.rest);
    } else {
      NoKeysNoFields(g);
    }
  }

  /** The same value up to the order of object keys, a date being its ISO text. */
  predicate Same(a: Json, b: Json)
    requires Valid(a) && Valid(b)
    decreases a
  {
    match a
    case Str(s) => b == Str(s) || b == Date(s)
    case Date(s) => b == Str(s) || b == Date(s)
    case Arr(items) => b.Arr? && SameItems(items, b.items)
    case Obj(fields) => b.Obj? && Keys(fields) == Keys(b.fields) && SameFields(fields, b.fields)
    case _ => a == b
  }

  predicate SameItems(a: Items, b: Items)
    requires ValidItems(a) && ValidItems(b)
    decreases a
  {
    match a
    case NoItems => b.NoItems?
    case Item(head, tail) => b.Item? && Same(head, b.head) && SameItems(tail, b.tail)
  }

  /** Every field of `a` is a field of `b` with the same value. */
  predicate SameFields(a: Fields, b: Fields)
    requires ValidFields(a) && ValidFields(b)
    decreases a
  {
    match a
    case NoFields => true
    case Field(k, v, rest) =>
      k in Keys(b) && (ValidGet(b, k); Same(v, Get(b, k))) && SameFields(rest, b)
  }

  lemma ValidGet(f: Fields, k: string)
    requires ValidFields(f) && k in Keys(f)
    ensures Valid(Get(f, k))
  {
  }

  /** Two values have the same canonical form exactly when they are the same value up to the
      order of their keys. */
  lemma {:induction false} CanonicalIffSame(a: Json, b: Json)
    requires Valid(a) && Valid(b)
    ensures Canonicalize(a) == Canonicalize(b) <==> Same(a, b)
    decreases a
  {
    match a
    case Arr(items) =>
      if b.Arr? {
        CanonicalItemsIffSame(items, b.items);
      }
    case Obj(fields) =>
      if b.Obj? {
        CanonicalFieldsAre(fields);
        CanonicalFieldsAre(b.fields);
        CanonicalFieldsIffSame(fields, b.fields);
        if Keys(fields) == Keys(b.fields) && SameFields(fields, b.fields) {
          assert forall k :: k in Keys(fields) ==> AgreeAt(fields, b.fields, k);
          SortedFieldsEqual(CanonicalFields(fields), CanonicalFields(b.fields));
        }
      }
    case _ =>
  }

  lemma SameReflexive(v: Json)
    requires Valid(v)
    ensures Same(v, v)
  {
    CanonicalIffSame(v, v);
  }

  lemma {:induction false} CanonicalItemsIffSame(a: Items, b: Items)
    requires ValidItems(a) && ValidItems(b)
    ensures CanonicalItems(a) == CanonicalItems(b) <==> SameItems(a, b)
    decreases a
  {
    if a.Item? && b.Item? {
      CanonicalIffSame(a.head, b.head);
      CanonicalItemsIffSame(a.tail, b.tail);
    }
  }

  predicate AgreeAt(a: Fields, b: Fields, k: string)
    requires k in Keys(a)
  {
    k in Keys(b) && Canonicalize(Get(a, k)) == Canonicalize(Get(b, k))
  }

  lemma {:induction false} CanonicalFieldsIffSame(a: Fields, b: Fields)
    requires ValidFields(a) && ValidFields(b) && DistinctKeys(a)
    ensures SameFields(a, b) <==> forall k :: k in Keys(a) ==> AgreeAt(a, b, k)
    decreases a
  {
    if a.Field? {
      CanonicalFieldsIffSame(a.rest, b);
      if a.key in Keys(b) {
        ValidGet(b, a.key);
        CanonicalIffSame(a.value, Get(b, a.key));
      }
      assert a.key in Keys(a) && Get(a, a.key) == a.value;
      assert forall k :: k in Keys(a) <==> k == a.key || k in Keys(a.rest);
      forall k | k in Keys(a.rest) ensures AgreeAt(a, b, k) == AgreeAt(a.rest, b, k) {
        assert k in Keys(a) && Get(a, k) == Get(a.rest, k);
      }
      assert (forall k :: k in Keys(a) ==> AgreeAt(a, b, k))
        <==> AgreeAt(a, b, a.key) && forall k :: k in Keys(a.rest) ==> AgreeAt(a.rest, b, k);
    }
  }

  /** No dates left. */
  predicate Plain(v: Json) {
    match v
    case Date(_) => false
    case Arr(items) => PlainItems(items)
    case Obj(fields) => PlainFields(fields)
    case _ => true
  }

  predicate PlainItems(items: Items) {
    items.Item? ==> Plain(items.head) && PlainItems(items.tail)
  }

  predicate PlainFields(f: Fields) {
    f.Field? ==> Plain(f.value) && PlainFields(f.rest)
  }

  lemma {:induction false} InsertPlain(k: string, v: Json, f: Fields)
    requires Plain(v) && PlainFields(f) && Valid(v) && ValidFields(f)
    ensures PlainFields(Insert(k, v, f)) && ValidFields(Insert(k, v, f))
  {
    if f.Field? && Less(f.key, k) {
      InsertPlain(k, v, f.rest);
    }
  }

  lemma {:induction false} SortedAreDistinct(f: Fields)
    requires SortedKeys(f)
    ensures DistinctKeys(f)
  {
    if f.Field? {
      SortedAreDistinct(f.rest);
      FirstKeyOnce(f);
    }
  }

  lemma {:induction false} CanonicalIsPlain(v: Json)
    requires Valid(v)
    ensures Plain(Canonicalize(v)) && Valid(Canonicalize(v))
    decreases v
  {
    match v
    case Arr(items) => CanonicalItemsPlain(items);
    case Obj(fields) =>
      CanonicalFieldsPlain(fields);
      CanonicalFieldsAre(fields);
      SortedAreDistinct(CanonicalFields(fields));
    case _ =>
  }

  lemma {:induction false} CanonicalItemsPlain(items: Items)
    requires ValidItems(items)
    ensures PlainItems(CanonicalItems(items)) && ValidItems(CanonicalItems(items))
    decreases items
  {
    if items.Item? {
      CanonicalIsPlain(items.head);
      CanonicalItemsPlain(items.tail);
    }
  }

  lemma {:induction false} CanonicalFieldsPlain(f: Fields)
    requires ValidFields(f)
    ensures PlainFields(CanonicalFields(f)) && ValidFields(CanonicalFields(f))
    decreases f
  {
    if f.Field? {
      CanonicalIsPlain(f.value);
      CanonicalFieldsPlain(f.rest);
      InsertPlain(f.key, Canonicalize(f.value), CanonicalFields(f.rest));
    }
  }

  lemma {:induction false} InsertAtFront(k: string, v: Json, f: Fields)
    requires SortedKeys(Field(k, v, f))
    ensures Insert(k, v, f) == Field(k, v, f)
  {
    if f.Field? {
      LessTotal(k, f.key);
    }
  }

  /** The canonical form of a canonical form is itself. */
  lemma {:induction false} CanonicalIdempotent(v: Json)
    requires Valid(v)
    ensures Canonicalize(Canonicalize(v)) == Canonicalize(v)
    decreases v
  {
    match v
    case Arr(items) => CanonicalItemsIdempotent(items);
    case Obj(fields) =>
      CanonicalFieldsAre(fields);
      CanonicalFieldsCanonical(fields);
      SortedIsFixed(CanonicalFields(fields));
    case _ =>
  }

  lemma {:induction false} CanonicalItemsIdempotent(items: Items)
    requires ValidItems(items)
    ensures CanonicalItems(CanonicalItems(items)) == CanonicalItems(items)
    decreases items
  {
    if items.Item? {
      CanonicalIdempotent(items.head);
      CanonicalItemsIdempotent(items.tail);
    }
  }

  /** Every value in the list is already canonical. */
  predicate CanonicalValues(f: Fields) {
    f.Field? ==> Canonicalize(f.value) == f.value && CanonicalValues(f.rest)
  }

  lemma {:induction false} InsertCanonical(k: string, v: Json, f: Fields)
    requires Canonicalize(v) == v && CanonicalValues(f)
    ensures CanonicalValues(Insert(k, v, f))
  {
    if f.Field? && Less(f.key, k) {
      InsertCanonical(k, v, f.rest);
    }
  }

  lemma {:induction false} CanonicalFieldsCanonical(f: Fields)
    requires ValidFields(f)
    ensures CanonicalValues(CanonicalFields(f))
    decreases f
  {
    if f.Field? {
      CanonicalIdempotent(f.value);
      CanonicalFieldsCanonical(f.rest);
      InsertCanonical(f.key, Canonicalize(f.value), CanonicalFields(f.rest));
    }
  }

  lemma {:induction false} SortedIsFixed(f: Fields)
    requires SortedKeys(f) && CanonicalValues(f)
    ensures CanonicalFields(f) == f
  {
    if f.Field? {
      SortedIsFixed(f.rest);
      InsertAtFront(f.key, f.value, f.rest);
    }
  }

  // ---------------------------------------------------------------- text

  function HexDigit(d: int): char
    requires 0 <= d < 16
  {
    if d < 10 then '0' + d as char else 'a' + (d - 10) as char
  }

  function Escape(c: char): string {
    if c == '"' then "\\\""
    else if c == '\\' then "\\\\"
    else if c == '\n' then "\\n"
    else if c == '\r' then "\\r"
    else if c == '\t' then "\\t"
    else if c as int == 8 then "\\b"
    else if c as int == 12 then "\\f"
    else if c < ' ' then "\\u00" + [HexDigit(c as int / 16), HexDigit(c as int % 16)]
    else [c]
  }

  function Escaped(s: string): string {
    if s == [] then "\"" else Escape(s[0]) + Escaped(s[1..])
  }

  /** A string literal; `Escaped` writes the closing quote. */
  function Quote(s: string): string {
    "\"" + Escaped(s)
  }

  function Number(n: int): string {
    if n < 0 then "-" + Decimal(-n) else Decimal(n)
  }

  function Stringify(v: Json): string {
    match v
    case Null => "null"
    case Bool(b) => if b then "true" else "false"
    case Num(n) => Number(n)
    case Str(s) => Quote(s)
    case Date(iso) => Quote(iso)
    case Arr(NoItems) => "[]"
    case Arr(Item(head, tail)) => "[" + (Stringify(head) + MoreItems(tail))
    case Obj(NoFields) => "{}"
    case Obj(Field(k, value, rest)) => "{" + (Quote(k) + (":" + (Stringify(value) + MoreFields(rest))))
  }

  /** The items after the first, with the closing bracket. */
  function MoreItems(items: Items): string {
    match items
    case NoItems => "]"
    case Item(head, tail) => "," + (Stringify(head) + MoreItems(tail))
  }

  function MoreFields(f: Fields): string {
    match f
    case NoFields => "}"
    case Field(k, value, rest) => "," + (Quote(k) + (":" + (Stringify(value) + MoreFields(rest))))
  }

  function CanonicalJson(v: Json): string {
    Stringify(Canonicalize(v))
  }

  // ---------------------------------------------------------------- the text is unambiguous

  lemma Assoc(x: string, y: string, z: string)
    ensures (x + y) + z == x + (y + z)
  {
  }

  lemma Peel(c: char, x: string, d: char, y: string)
    requires [c] + x == [d] + y
    ensures c == d && x == y
  {
    assert ([c] + x)[0] == c && ([d] + y)[0] == d;
    assert ([c] + x)[1..] == x && ([d] + y)[1..] == y;
  }

  lemma SameLengthCut(x: string, u: string, y: string, w: string)
    requires x + u == y + w && |x| == |y|
    ensures x == y && u == w
  {
    assert (x + u)[..|x|] == x && (y + w)[..|y|] == y;
    assert (x + u)[|x|..] == u && (y + w)[|y|..] == w;
  }

  lemma EscapeShape(c: char)
    ensures var e := Escape(c);
            && 1 <= |e| <= 6 && e[0] != '"'
            && (e[0] != '\\' ==> e == [c])
            && (e[0] == '\\' ==> |e| == (if e[1] == 'u' then 6 else 2))
  {
  }

  lemma EscapeInjective(c: char, d: char)
    requires Escape(c) == Escape(d)
    ensures c == d
  {
    var (e, n, m) := (Escape(c), c as int, d as int);
    if |e| == 6 {
      assert e[4] == HexDigit(n / 16) && e[4] == HexDigit(m / 16);
      assert e[5] == HexDigit(n % 16) && e[5] == HexDigit(m % 16);
      assert n / 16 == m / 16 && n % 16 == m % 16;
    } else if |e| == 2 {
      assert e[1] in ['"', '\\', 'n', 'r', 't', 'b', 'f'];
    }
  }

  lemma EscapedFirst(s: string)
    ensures Escaped(s) != [] && (Escaped(s)[0] == '"' <==> s == [])
  {
    if s != [] {
      EscapeShape(s[0]);
    }
  }

  lemma {:induction false} EscapedUnambiguous(s: string, x: string, t: string, y: string)
    requires Escaped(s) + x == Escaped(t) + y
    ensures s == t && x == y
  {
    var l, r := Escaped(s) + x, Escaped(t) + y;
    EscapedFirst(s);
    EscapedFirst(t);
    assert l[0] == Escaped(s)[0] && r[0] == Escaped(t)[0];
    if s == [] {
      Peel('"', x, '"', y);
    } else {
      EscapeShape(s[0]);
      EscapeShape(t[0]);
      var (e, f) := (Escape(s[0]), Escape(t[0]));
      Assoc(e, Escaped(s[1..]), x);
      Assoc(f, Escaped(t[1..]), y);
      assert l[0] == e[0] && r[0] == f[0];
      assert e[0] == '\\' ==> l[1] == e[1] && r[1] == f[1];
      SameLengthCut(e, Escaped(s[1..]) + x, f, Escaped(t[1..]) + y);
      EscapeInjective(s[0], t[0]);
      EscapedUnambiguous(s[1..], x, t[1..], y);
      assert s == [s[0]] + s[1..] && t == [t[0]] + t[1..];
    }
  }

  lemma QuoteUnambiguous(s: string, x: string, t: string, y: string)
    requires Quote(s) + x == Quote(t) + y
    ensures s == t && x == y
  {
    Assoc("\"", Escaped(s), x);
    Assoc("\"", Escaped(t), y);
    Peel('"', Escaped(s) + x, '"', Escaped(t) + y);
    EscapedUnambiguous(s, x, t, y);
  }

  /** What can follow a value: nothing, or a character that no number contains. */
  predicate Delimited(x: string) {
    x != [] ==> !IsDigit(x[0])
  }

  lemma DecimalUnambiguous(n: nat, x: string, m: nat, y: string)
    requires Decimal(n) + x == Decimal(m) + y && Delimited(x) && Delimited(y)
    ensures n == m && x == y
  {
    var (a, b) := (Decimal(n), Decimal(m));
    var (l, r) := (a + x, b + y);
    assert forall i :: 0 <= i < |a| ==> IsDigit(l[i]);
    assert forall i :: 0 <= i < |b| ==> IsDigit(r[i]);
    assert |x| > 0 ==> l[|a|] == x[0];
    assert |y| > 0 ==> r[|b|] == y[0];
    assert |l| == |r|;
    SameLengthCut(a, x, b, y);
    DecimalInjective(n, m);
  }

  lemma NumberUnambiguous(n: int, x: string, m: int, y: string)
    requires Number(n) + x == Number(m) + y && Delimited(x) && Delimited(y)
    ensures n == m && x == y
  {
    assert (Number(n) + x)[0] == Number(n)[0] && (Number(m) + y)[0] == Number(m)[0];
    assert n < 0 <==> m < 0;
    if n < 0 {
      Assoc("-", Decimal(-n), x);
      Assoc("-", Decimal(-m), y);
      Peel('-', Decimal(-n) + x, '-', Decimal(-m) + y);
      DecimalUnambiguous(-n, x, -m, y);
    } else {
      DecimalUnambiguous(n, x, m, y);
    }
  }

  /** Which kind of value a text begins. */
  function Kind(c: char): nat {
    if c == 'n' then 0
    else if c == 't' then 1
    else if c == 'f' then 2
    else if c == '-' || IsDigit(c) then 3
    else if c == '"' then 4
    else if c == '[' then 5
    else if c == '{' then 6
    else 7
  }

  function KindOf(v: Json): nat {
    match v
    case Null => 0
    case Bool(b) => if b then 1 else 2
    case Num(_) => 3
    case Str(_) => 4
    case Date(_) => 4
    case Arr(_) => 5
    case Obj(_) => 6
  }

  lemma FirstCharacter(v: Json)
    ensures Stringify(v) != [] && Kind(Stringify(v)[0]) == KindOf(v)
  {
  }

  lemma MoreIsDelimited(items: Items, f: Fields, x: string)
    ensures Delimited(MoreItems(items) + x) && Delimited(MoreFields(f) + x)
  {
  }

  /** A value is recovered from its text with whatever follows it. */
  lemma {:induction false} StringifyUnambiguous(a: Json, x: string, b: Json, y: string)
    requires Plain(a) && Plain(b) && Delimited(x) && Delimited(y)
    requires Stringify(a) + x == Stringify(b) + y
    ensures a == b && x == y
    decreases a
  {
    FirstCharacter(a);
    FirstCharacter(b);
    assert (Stringify(a) + x)[0] == Stringify(a)[0] && (Stringify(b) + y)[0] == Stringify(b)[0];
    assert KindOf(a) == KindOf(b);
    match a
    case Num(n) => NumberUnambiguous(n, x, b.n, y);
    case Str(s) => QuoteUnambiguous(s, x, b.s, y);
    case Arr(items) => ArrUnambiguous(items, x, b.items, y);
    case Obj(fields) => ObjUnambiguous(fields, x, b.fields, y);
    case _ => SameLengthCut(Stringify(a), x, Stringify(b), y);
  }

  lemma {:induction false} ArrUnambiguous(a: Items, x: string, b: Items, y: string)
    requires PlainItems(a) && PlainItems(b) && Delimited(x) && Delimited(y)
    requires Stringify(Arr(a)) + x == Stringify(Arr(b)) + y
    ensures a == b && x == y
    decreases a, 1
  {
    var l := if a.NoItems? then "]" else Stringify(a.head) + MoreItems(a.tail);
    var r := if b.NoItems? then "]" else Stringify(b.head) + MoreItems(b.tail);
    assert Stringify(Arr(a)) == "[" + l && Stringify(Arr(b)) == "[" + r;
    Assoc("[", l, x);
    Assoc("[", r, y);
    Peel('[', l + x, '[', r + y);
    if a.Item? {
      FirstCharacter(a.head);
      assert (l + x)[0] == Stringify(a.head)[0];
    }
    if b.Item? {
      FirstCharacter(b.head);
      assert (r + y)[0] == Stringify(b.head)[0];
    }
    assert (l + x)[0] == ']' <==> a.NoItems?;
    assert (r + y)[0] == ']' <==> b.NoItems?;
    if a.Item? {
      Assoc(Stringify(a.head), MoreItems(a.tail), x);
      Assoc(Stringify(b.head), MoreItems(b.tail), y);
      MoreIsDelimited(a.tail, NoFields, x);
      MoreIsDelimited(b.tail, NoFields, y);
      StringifyUnambiguous(a.head, MoreItems(a.tail) + x, b.head, MoreItems(b.tail) + y);
      MoreItemsUnambiguous(a.tail, x, b.tail, y);
    } else {
      Peel(']', x, ']', y);
    }
  }

  lemma {:induction false} MoreItemsUnambiguous(a: Items, x: string, b: Items, y: string)
    requires PlainItems(a) && PlainItems(b) && Delimited(x) && Delimited(y)
    requires MoreItems(a) + x == MoreItems(b) + y
    ensures a == b && x == y
    decreases a
  {
    assert (MoreItems(a) + x)[0] == (if a.Item? then ',' else ']');
    assert (MoreItems(b) + y)[0] == (if b.Item? then ',' else ']');
    if a.Item? {
      var l, r := Stringify(a.head) + MoreItems(a.tail), Stringify(b.head) + MoreItems(b.tail);
      Assoc(",", l, x);
      Assoc(",", r, y);
      Peel(',', l + x, ',', r + y);
      Assoc(Stringify(a.head), MoreItems(a.tail), x);
      Assoc(Stringify(b.head), MoreItems(b.tail), y);
      MoreIsDelimited(a.tail, NoFields, x);
      MoreIsDelimited(b.tail, NoFields, y);
      StringifyUnambiguous(a.head, MoreItems(a.tail) + x, b.head, MoreItems(b.tail) + y);
      MoreItemsUnambiguous(a.tail, x, b.tail, y);
    } else {
      Peel(']', x, ']', y);
    }
  }

  /** One field and what follows it. */
  function FieldText(f: Fields): string
    requires f.Field?
  {
    Quote(f.key) + (":" + (Stringify(f.value) + MoreFields(f.rest)))
  }

  lemma {:induction false} FieldUnambiguous(a: Fields, x: string, b: Fields, y: string)
    requires a.Field? && b.Field? && PlainFields(a) && PlainFields(b) && Delimited(x) && Delimited(y)
    requires FieldText(a) + x == FieldText(b) + y
    ensures a == b && x == y
    decreases a, 0
  {
    var l, r := Stringify(a.value) + MoreFields(a.rest), Stringify(b.value) + MoreFields(b.rest);
    Assoc(Quote(a.key), ":" + l, x);
    Assoc(Quote(b.key), ":" + r, y);
    QuoteUnambiguous(a.key, (":" + l) + x, b.key, (":" + r) + y);
    Assoc(":", l, x);
    Assoc(":", r, y);
    Peel(':', l + x, ':', r + y);
    Assoc(Stringify(a.value), MoreFields(a.rest), x);
    Assoc(Stringify(b.value), MoreFields(b.rest), y);
    MoreIsDelimited(NoItems, a.rest, x);
    MoreIsDelimited(NoItems, b.rest, y);
    StringifyUnambiguous(a.value, MoreFields(a.rest) + x, b.value, MoreFields(b.rest) + y);
    MoreFieldsUnambiguous(a.rest, x, b.rest, y);
  }

  lemma {:induction false} ObjUnambiguous(a: Fields, x: string, b: Fields, y: string)
    requires PlainFields(a) && PlainFields(b) && Delimited(x) && Delimited(y)
    requires Stringify(Obj(a)) + x == Stringify(Obj(b)) + y
    ensures a == b && x == y
    decreases a, 1
  {
    var l := if a.NoFields? then "}" else FieldText(a);
    var r := if b.NoFields? then "}" else FieldText(b);
    assert Stringify(Obj(a)) == "{" + l && Stringify(Obj(b)) == "{" + r;
    Assoc("{", l, x);
    Assoc("{", r, y);
    Peel('{', l + x, '{', r + y);
    assert (l + x)[0] == (if a.Field? then '"' else '}');
    assert (r + y)[0] == (if b.Field? then '"' else '}');
    if a.Field? {
      FieldUnambiguous(a, x, b, y);
    } else {
      Peel('}', x, '}', y);
    }
  }

  lemma {:induction false} MoreFieldsUnambiguous(a: Fields, x: string, b: Fields, y: string)
    requires PlainFields(a) && PlainFields(b) && Delimited(x) && Delimited(y)
    requires MoreFields(a) + x == MoreFields(b) + y
    ensures a == b && x == y
    decreases a, 1
  {
    assert (MoreFields(a) + x)[0] == (if a.Field? then ',' else '}');
    assert (MoreFields(b) + y)[0] == (if b.Field? then ',' else '}');
    if a.Field? {
      Assoc(",", FieldText(a), x);
      Assoc(",", FieldText(b), y);
      Peel(',', FieldText(a) + x, ',', FieldText(b) + y);
      FieldUnambiguous(a, x, b, y);
    } else {
      Peel('}', x, '}', y);
    }
  }

  /** The hashed text identifies the value: two payloads have the same canonical text exactly
      when they are the same value up to the order of their keys. */
  lemma CanonicalJsonIffSame(a: Json, b: Json)
    requires Valid(a) && Valid(b)
    ensures CanonicalJson(a) == CanonicalJson(b) <==> Same(a, b)
  {
    CanonicalIffSame(a, b);
    CanonicalIsPlain(a);
    CanonicalIsPlain(b);
    if CanonicalJson(a) == CanonicalJson(b) {
      StringifyUnambiguous(Canonicalize(a), "", Canonicalize(b), "");
    }
  }

  // ---------------------------------------------------------------- records

  /** An object literal. */
  function Record(pairs: seq<(string, Json)>): Fields {
    if pairs == [] then NoFields else Field(pairs[0].0, pairs[0].1, Record(pairs[1..]))
  }

  function List(values: seq<Json>): Items {
    if values == [] then NoItems else Item(values[0], List(values[1..]))
  }

  predicate ValidPairs(pairs: seq<(string, Json)>) {
    && (forall i :: 0 <= i < |pairs| ==> Valid(pairs[i].1))
    && (forall i, j :: 0 <= i < j < |pairs| ==> pairs[i].0 != pairs[j].0)
  }

  lemma {:induction false} RecordKeys(pairs: seq<(string, Json)>)
    requires ValidPairs(pairs)
    ensures forall k :: k in Keys(Record(pairs)) <==> exists i :: 0 <= i < |pairs| && pairs[i].0 == k
    ensures DistinctKeys(Record(pairs)) && ValidFields(Record(pairs))
    ensures forall i :: 0 <= i < |pairs| ==> pairs[i].0 in Keys(Record(pairs)) && Get(Record(pairs), pairs[i].0) == pairs[i].1
  {
    if pairs != [] {
      var rest := pairs[1..];
      RecordKeys(rest);
      assert forall i :: 1 <= i < |pairs| ==> pairs[i] == rest[i - 1];
    }
  }

  lemma {:induction false} RecordSameFrom(p: seq<(string, Json)>, g: Fields)
    requires ValidPairs(p) && ValidFields(g) && DistinctKeys(g)
    requires forall i :: 0 <= i < |p| ==> p[i].0 in Keys(g)
    ensures ValidFields(Record(p))
    ensures SameFields(Record(p), g) <==>
              (forall i :: 0 <= i < |p| ==> (ValidGet(g, p[i].0); Same(p[i].1, Get(g, p[i].0))))
  {
    RecordKeys(p);
    if p != [] {
      var rest := p[1..];
      RecordSameFrom(rest, g);
      ValidGet(g, p[0].0);
      assert forall i :: 1 <= i < |p| ==> p[i] == rest[i - 1];
      assert forall i :: 0 <= i < |rest| ==> rest[i] == p[i + 1];
    }
  }

  /** Two records with the same keys are the same value exactly when they agree key by key. */
  lemma RecordsSame(p: seq<(string, Json)>, q: seq<(string, Json)>)
    requires ValidPairs(p) && ValidPairs(q) && |p| == |q|
    requires forall i :: 0 <= i < |p| ==> p[i].0 == q[i].0
    ensures Valid(Obj(Record(p))) && Valid(Obj(Record(q)))
    ensures Same(Obj(Record(p)), Obj(Record(q))) <==> forall i :: 0 <= i < |p| ==> Same(p[i].1, q[i].1)
  {
    RecordKeys(p);
    RecordKeys(q);
    assert Keys(Record(p)) == Keys(Record(q));
    RecordSameFrom(p, Record(q));
    forall i | 0 <= i < |p| ensures Get(Record(q), p[i].0) == q[i].1 {
      assert p[i].0 == q[i].0;
    }
  }

  lemma {:induction false} ListsSame(a: seq<Json>, b: seq<Json>)
    requires forall i :: 0 <= i < |a| ==> Valid(a[i])
    requires forall i :: 0 <= i < |b| ==> Valid(b[i])
    ensures Valid(Arr(List(a))) && Valid(Arr(List(b)))
    ensures Same(Arr(List(a)), Arr(List(b))) <==> |a| == |b| && forall i :: 0 <= i < |a| ==> Same(a[i], b[i])
  {
    if a != [] && b != [] {
      ListsSame(a[1..], b[1..]);
      assert forall i :: 1 <= i < |a| ==> a[i] == a[1..][i - 1];
      assert forall i :: 1 <= i < |b| ==> b[i] == b[1..][i - 1];
    } else if a != [] {
      ListsSame(a[1..], b);
    } else if b != [] {
      ListsSame(a, b[1..]);
    }
  }
}
