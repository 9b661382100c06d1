/** JSON values have texts that can be read back: a printer whose output is
    uniquely readable, which is all the converters assume of JSON text. */
module JsonText {
  import opened Json
  import opened Options

  // A string with its end marked.
  function Chars(s: string): string {
    if s == "" then "0" else "1" + [s[0]] + Chars(s[1..])
  }

  function Unary(n: nat): string {
    if n == 0 then "0" else "1" + Unary(n - 1)
  }

  function Whole(i: int): string {
    if i < 0 then "-" + Unary(-i) else "+" + Unary(i)
  }

  function KeyText(k: Key): string {
    match k
    case Providers => "p"
    case Models => "m"
    case Routes => "r"
    case UnionSnapshot => "u"
    case FormatPreference => "f"
    case MapField(ModelMap) => "a"
    case MapField(Disabled) => "b"
    case MapField(Variants) => "c"
    case DiscoveryField(keyLevel) => if keyLevel then "d" else "e"
    case Name(s) => "n" + Chars(s)
  }

  // Some order of the keys of an object.
  ghost function KeysOf(keys: set<Key>): seq<Key>
  {
    if keys == {} then [] else var k :| k in keys; [k] + KeysOf(keys - {k})
  }

  ghost function Printed(v: Json): string
    decreases v, 1
  {
    match v
    case Null => "0"
    case Bool(b) => if b then "t" else "f"
    case Num(digits, exponent) => "#" + Whole(digits) + Whole(exponent)
    case Str(s) => "s" + Chars(s)
    case List(items) => "[" + ItemsText(items)
    case Obj(fields) => "{" + FieldsText(v, KeysOf(fields.Keys))
  }

  ghost function ItemsText(items: seq<Json>): string
    decreases items, 0
  {
    if items == [] then "]" else "," + Printed(items[0]) + ItemsText(items[1..])
  }

  ghost function FieldsText(v: Json, keys: seq<Key>): string
    requires v.Obj?
    decreases v, 0, |keys|
  {
    if keys == [] then "}"
    else
      var value := if keys[0] in v.fields then Printed(v.fields[keys[0]]) else "";
      ":" + KeyText(keys[0]) + value + FieldsText(v, keys[1..])
  }

  // ------------------------------------------------------ unique readability

  // Two texts that start with the same character.
  lemma Behead(c: char, s: string, d: char, t: string)
    requires [c] + s == [d] + t
    ensures c == d && s == t
  {
    assert ([c] + s)[0] == c && ([d] + t)[0] == d;
    assert ([c] + s)[1..] == s && ([d] + t)[1..] == t;
  }

  lemma Regroup(a: string, b: string, c: string, d: string)
    ensures a + b + c + d == a + (b + (c + d))
    ensures a + b + c == a + (b + c)
  {
  }

  lemma {:induction false} CharsRead(s: string, x: string, t: string, y: string)
    requires Chars(s) + x == Chars(t) + y
    ensures s == t && x == y
    decreases |s|
  {
    if s == "" {
      Head("0", x);
      if t != "" {
        Regroup("1", [t[0]], Chars(t[1..]), y);
        Behead('0', x, '1', [t[0]] + (Chars(t[1..]) + y));
      } else {
        Behead('0', x, '0', y);
      }
    } else {
      Regroup("1", [s[0]], Chars(s[1..]), x);
      if t == "" {
        Behead('1', [s[0]] + (Chars(s[1..]) + x), '0', y);
      } else {
        Regroup("1", [t[0]], Chars(t[1..]), y);
        Behead('1', [s[0]] + (Chars(s[1..]) + x), '1', [t[0]] + (Chars(t[1..]) + y));
        Behead(s[0], Chars(s[1..]) + x, t[0], Chars(t[1..]) + y);
        CharsRead(s[1..], x, t[1..], y);
        assert s == [s[0]] + s[1..] && t == [t[0]] + t[1..];
      }
    }
  }

  lemma Head(a: string, b: string)
    requires a != ""
    ensures (a + b)[0] == a[0] && (a + b)[1..] == a[1..] + b
  {
  }

  lemma {:induction false} UnaryRead(m: nat, x: string, n: nat, y: string)
    requires Unary(m) + x == Unary(n) + y
    ensures m == n && x == y
    decreases m
  {
    Head(Unary(m), x);
    Head(Unary(n), y);
    if m > 0 && n > 0 {
      assert Unary(m)[1..] == Unary(m - 1) && Unary(n)[1..] == Unary(n - 1);
      UnaryRead(m - 1, x, n - 1, y);
    } else if m == 0 && n == 0 {
      assert Unary(m)[1..] + x == x && Unary(n)[1..] + y == y;
    }
  }

  lemma {:induction false} WholeRead(i: int, x: string, j: int, y: string)
    requires Whole(i) + x == Whole(j) + y
    ensures i == j && x == y
  {
    Head(Whole(i), x);
    Head(Whole(j), y);
    if i < 0 {
      assert Whole(i)[1..] == Unary(-i) && Whole(j)[1..] == Unary(-j);
      UnaryRead(-i, x, -j, y);
    } else {
      assert Whole(i)[1..] == Unary(i) && Whole(j)[1..] == Unary(j);
      UnaryRead(i, x, j, y);
    }
  }

  lemma {:induction false} KeyRead(k: Key, x: string, j: Key, y: string)
    requires KeyText(k) + x == KeyText(j) + y
    ensures k == j && x == y
  {
    Head(KeyText(k), x);
    Head(KeyText(j), y);
    if k.Name? {
      assert KeyText(k)[1..] == Chars(k.s) && KeyText(j)[1..] == Chars(j.s);
      CharsRead(k.s, x, j.s, y);
    } else {
      assert KeyText(k)[1..] == "" && KeyText(j)[1..] == "";
      assert "" + x == x && "" + y == y;
    }
  }

  // ------------------------------------------------------- values read back

  lemma {:induction false} ValueRead(v: Json, x: string, w: Json, y: string)
    requires Printed(v) + x == Printed(w) + y
    ensures v == w && x == y
    decreases v, 2
  {
    Head(Printed(v), x);
    Head(Printed(w), y);
    var s, t := Printed(v)[1..], Printed(w)[1..];
    assert s + x == t + y;
    match v
    case Null => Nothing(s, x, t, y);
    case Bool(_) => Nothing(s, x, t, y);
    case Num(digits, exponent) => NumberRead(v, x, w, y);
    case Str(a) =>
      assert s == Chars(a) && t == Chars(w.s);
      CharsRead(a, x, w.s, y);
    case List(items) =>
      assert s == ItemsText(items) && t == ItemsText(w.items);
      ItemsRead(items, x, w.items, y);
    case Obj(fields) =>
      var ks, js := KeysOf(fields.Keys), KeysOf(w.fields.Keys);
      KeysOfAll(fields.Keys);
      KeysOfAll(w.fields.Keys);
      assert s == FieldsText(v, ks) && t == FieldsText(w, js);
      FieldsRead(v, ks, x, w, js, y);
      SameFields(fields, w.fields, ks);
  }

  lemma Nothing(s: string, x: string, t: string, y: string)
    requires s == "" && t == "" && s + x == t + y
    ensures x == y
  {
    assert s + x == x && t + y == y;
  }

  lemma NumberRead(v: Json, x: string, w: Json, y: string)
    requires v.Num? && w.Num? && Printed(v)[1..] + x == Printed(w)[1..] + y
    ensures v == w && x == y
  {
    Paired('#', Whole(v.digits), Whole(v.exponent), x);
    Paired('#', Whole(w.digits), Whole(w.exponent), y);
    WholeRead(v.digits, Whole(v.exponent) + x, w.digits, Whole(w.exponent) + y);
    WholeRead(v.exponent, x, w.exponent, y);
  }

  lemma {:induction false} ItemsRead(items: seq<Json>, x: string, others: seq<Json>, y: string)
    requires ItemsText(items) + x == ItemsText(others) + y
    ensures items == others && x == y
    decreases items, 1
  {
    Head(ItemsText(items), x);
    Head(ItemsText(others), y);
    if items == [] {
      Nothing(ItemsText(items)[1..], x, ItemsText(others)[1..], y);
    } else {
      ItemsTail(items, x);
      ItemsTail(others, y);
      ValueRead(items[0], ItemsText(items[1..]) + x, others[0], ItemsText(others[1..]) + y);
      ItemsRead(items[1..], x, others[1..], y);
      assert items == [items[0]] + items[1..] && others == [others[0]] + others[1..];
    }
  }

  lemma ItemsTail(items: seq<Json>, x: string)
    requires items != []
    ensures ItemsText(items)[1..] + x == Printed(items[0]) + (ItemsText(items[1..]) + x)
  {
    Paired(',', Printed(items[0]), ItemsText(items[1..]), x);
  }

  lemma {:induction false} KeysOfAll(keys: set<Key>)
    ensures forall k :: k in KeysOf(keys) <==> k in keys
  {
    if keys != {} {
      var ks := KeysOf(keys);
      KeysOfAll(keys - {ks[0]});
      assert ks == [ks[0]] + ks[1..];
    }
  }

  lemma {:induction false} FieldsRead(v: Json, ks: seq<Key>, x: string, w: Json, js: seq<Key>, y: string)
    requires v.Obj? && w.Obj? && (forall k :: k in ks ==> k in v.fields) && (forall k :: k in js ==> k in w.fields)
    requires FieldsText(v, ks) + x == FieldsText(w, js) + y
    ensures ks == js && x == y && forall k :: k in ks ==> k in w.fields && v.fields[k] == w.fields[k]
    decreases v, 1, |ks|
  {
    Head(FieldsText(v, ks), x);
    Head(FieldsText(w, js), y);
    if ks == [] {
      Nothing(FieldsText(v, ks)[1..], x, FieldsText(w, js)[1..], y);
    } else {
      var k, j := ks[0], js[0];
      assert k in ks && j in js;
      assert ks == [k] + ks[1..] && js == [j] + js[1..];
      FieldsTail(v, ks, x);
      FieldsTail(w, js, y);
      KeyRead(k, Printed(v.fields[k]) + (FieldsText(v, ks[1..]) + x),
              j, Printed(w.fields[j]) + (FieldsText(w, js[1..]) + y));
      ValueRead(v.fields[k], FieldsText(v, ks[1..]) + x, w.fields[j], FieldsText(w, js[1..]) + y);
      FieldsRead(v, ks[1..], x, w, js[1..], y);
    }
  }

  lemma FieldsTail(v: Json, ks: seq<Key>, x: string)
    requires v.Obj? && ks != [] && ks[0] in v.fields
    ensures FieldsText(v, ks)[1..] + x
         == KeyText(ks[0]) + (Printed(v.fields[ks[0]]) + (FieldsText(v, ks[1..]) + x))
  {
    Tagged(':', KeyText(ks[0]), Printed(v.fields[ks[0]]), FieldsText(v, ks[1..]), x);
  }

  lemma Tagged(tag: char, a: string, b: string, c: string, x: string)
    ensures ([tag] + a + b + c)[1..] + x == a + (b + (c + x))
  {
    assert ([tag] + a + b + c)[1..] == a + b + c;
    Regroup(a, b, c, x);
  }

  lemma Paired(tag: char, a: string, b: string, x: string)
    ensures ([tag] + a + b)[1..] + x == a + (b + x)
  {
    assert ([tag] + a + b)[1..] == a + b;
  }

  lemma SameFields(a: Section, b: Section, ks: seq<Key>)
    requires (forall k :: k in ks <==> k in a) && (forall k :: k in ks <==> k in b)
    requires forall k :: k in ks ==> k in a && k in b && a[k] == b[k]
    ensures a == b
  {
    assert a.Keys == b.Keys;
  }

  /** Different values have different texts. */
  lemma {:induction false} PrintedInjective(v: Json, w: Json)
    requires Printed(v) == Printed(w)
    ensures v == w
  {
    assert Printed(v) + "" == Printed(w) + "";
    ValueRead(v, "", w, "");
  }

  // Reading a text back: the value it was printed from, if there is one.
  ghost function Read(s: string): Option<Json> {
    if exists v: Json :: Printed(v) == s then
      var v: Json :| Printed(v) == s;
      Some(v)
    else None
  }

  lemma ReadPrinted(v: Json)
    ensures Read(Printed(v)) == Some(v) && Printed(v) != ""
  {
    var s := Printed(v);
    var w := Read(s).value;
    PrintedInjective(v, w);
  }
}
