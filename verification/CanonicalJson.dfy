/** The canonical form of a signed payload: which bytes are signed, and what they determine. */
module CanonicalJson {
  import opened Orders

  /** A decoded payload; numbers keep the text they were written in. */
  datatype Json =
    | JNull | JBool(b: bool) | JNumber(text: string) | JString(s: string)
    | JList(items: seq<Json>) | JObject(fields: map<string, Json>)

  datatype Pair = Pair(key: string, value: Ordered)

  /** A payload with the fields of each object in key order. */
  datatype Ordered =
    | ONull | OBool(b: bool) | ONumber(text: string) | OString(s: string)
    | OList(items: seq<Ordered>) | OMap(pairs: seq<Pair>)

  // ---- Normalization ----

  function TextKey(k: string): Key { [Text(k)] }

  ghost function SortedKeys(keys: set<string>): (sorted: seq<string>)
    ensures Enumerates(sorted, keys)
  {
    Arrange(keys, TextKey)
  }

  ghost function Normalized(v: Json): Ordered
    decreases v
  {
    match v
    case JNull => ONull
    case JBool(b) => OBool(b)
    case JNumber(t) => ONumber(t)
    case JString(s) => OString(s)
    case JList(items) => OList(seq(|items|, i requires 0 <= i < |items| => Normalized(items[i])))
    case JObject(fields) =>
      var keys := SortedKeys(fields.Keys);
      OMap(seq(|keys|, i requires 0 <= i < |keys| => assert keys[i] in fields.Keys; Pair(keys[i], Normalized(fields[keys[i]]))))
  }

  lemma SortingGivesSortedKeys(sorted: seq<string>, listed: seq<string>, keys: set<string>)
    requires Enumerates(listed, keys) && multiset(sorted) == multiset(listed) && Sorted(sorted, TextKey)
    ensures sorted == SortedKeys(keys)
  {
    forall a, b | a in keys && b in keys && TextKey(a) == TextKey(b)
      ensures a == b
    {
      assert TextKey(a)[0] == TextKey(b)[0];
    }
    ArrangeUnique(sorted, listed, keys, TextKey);
  }

  /** The keys of a map, in whatever order the map yields them. */
  method CollectKeys(fields: map<string, Json>) returns (keys: seq<string>)
    ensures Enumerates(keys, fields.Keys)
  {
    keys := [];
    var todo := fields.Keys;
    while todo != {}
      invariant todo <= fields.Keys
      invariant forall i :: 0 <= i < |keys| ==> keys[i] in fields && keys[i] !in todo
      invariant forall k :: k in fields && k !in todo ==> k in keys
      invariant forall i, j :: 0 <= i < j < |keys| ==> keys[i] != keys[j]
    {
      var k :| k in todo;
      todo := todo - {k};
      keys := keys + [k];
    }
  }

  /** Iteration order never shows: the result is a function of the value. */
  method Normalize(v: Json) returns (out: Ordered)
    ensures out == Normalized(v) && Ascending(out) && Meaning(out) == v
    decreases v, 1
  {
    NormalizedAscends(v);
    NormalizedKeepsMeaning(v);
    match v
    case JNull => out := ONull;
    case JBool(b) => out := OBool(b);
    case JNumber(t) => out := ONumber(t);
    case JString(s) => out := OString(s);
    case JList(items) =>
      var ordered := NormalizeItems(items);
      out := OList(ordered);
    case JObject(fields) =>
      var pairs := NormalizeFields(fields);
      out := OMap(pairs);
  }

  method NormalizeItems(items: seq<Json>) returns (ordered: seq<Ordered>)
    ensures ordered == seq(|items|, i requires 0 <= i < |items| => Normalized(items[i]))
    decreases items, 0
  {
    hide Normalized;
    ordered := [];
    for i := 0 to |items|
      invariant |ordered| == i && forall j :: 0 <= j < i ==> ordered[j] == Normalized(items[j])
    {
      var item := Normalize(items[i]);
      ordered := ordered + [item];
    }
  }

  method NormalizeFields(fields: map<string, Json>) returns (pairs: seq<Pair>)
    ensures OMap(pairs) == Normalized(JObject(fields))
    decreases JObject(fields), 0
  {
    hide Normalized, Sorted, SortedKeys;
    var listed := CollectKeys(fields);
    var keys := SortSlice(listed, TextKey);
    SortingGivesSortedKeys(keys, listed, fields.Keys);
    NormalizedPairs(fields);
    pairs := [];
    for i := 0 to |keys|
      invariant |pairs| == i && forall j :: 0 <= j < i ==> keys[j] in fields && pairs[j] == Pair(keys[j], Normalized(fields[keys[j]]))
    {
      assert keys[i] in fields.Keys;
      var value := Normalize(fields[keys[i]]);
      pairs := pairs + [Pair(keys[i], value)];
    }
    assert pairs == Normalized(JObject(fields)).pairs;
  }

  lemma NormalizedPairs(fields: map<string, Json>)
    ensures var keys := SortedKeys(fields.Keys);
      var o := Normalized(JObject(fields));
      && o.OMap? && |o.pairs| == |keys|
      && forall i :: 0 <= i < |keys| ==> keys[i] in fields.Keys && o.pairs[i] == Pair(keys[i], Normalized(fields[keys[i]]))
  {
  }

  /** The keys of an object ascend: each is a proper beginning of every later one, or has the smaller
      character where they first differ. */
  lemma KeysAscend(fields: map<string, Json>, i: nat, j: nat)
    requires i < j < |Normalized(JObject(fields)).pairs|
    ensures TextBefore(Normalized(JObject(fields)).pairs[i].key, Normalized(JObject(fields)).pairs[j].key)
  {
    hide Normalized, TextBefore;
    NormalizedPairs(fields);
    var keys := SortedKeys(fields.Keys);
    assert Sorted(keys, TextKey) by { SortedKeysSorted(fields.Keys); }
    SortedTextsAscend(keys, TextKey, (k: string) => k);
  }

  lemma SortedKeysSorted(keys: set<string>)
    ensures Sorted(SortedKeys(keys), TextKey)
  {
  }

  /** Keys ascend in every object inside the value. */
  ghost predicate Ascending(o: Ordered)
    decreases o
  {
    match o
    case OList(items) => forall i :: 0 <= i < |items| ==> Ascending(items[i])
    case OMap(pairs) =>
      && (forall i, j :: 0 <= i < j < |pairs| ==> TextBefore(pairs[i].key, pairs[j].key))
      && forall i :: 0 <= i < |pairs| ==> Ascending(pairs[i].value)
    case _ => true
  }

  lemma {:induction false} NormalizedAscends(v: Json)
    ensures Ascending(Normalized(v))
    decreases v
  {
    hide TextBefore;
    match v
    case JList(items) =>
      forall i | 0 <= i < |items|
        ensures Ascending(Normalized(items[i]))
      {
        NormalizedAscends(items[i]);
      }
    case JObject(fields) =>
      var o, keys := Normalized(v), SortedKeys(fields.Keys);
      NormalizedPairs(fields);
      forall i | 0 <= i < |keys|
        ensures Ascending(o.pairs[i].value)
      {
        assert keys[i] in fields.Keys;
        NormalizedAscends(fields[keys[i]]);
      }
      forall i, j | 0 <= i < j < |o.pairs|
        ensures TextBefore(o.pairs[i].key, o.pairs[j].key)
      {
        KeysAscend(fields, i, j);
      }
    case _ =>
  }

  // ---- Texts ----

  function HexDigit(n: nat): char
    requires n < 16
  {
    "0123456789abcdef"[n]
  }

  /** A character as it stands inside a JSON text, with the escapes that keep it safe in HTML. */
  function Escape(c: char): string {
    if c == '\"' then "\\\""
    else if c == '\\' then "\\\\"
    else if c == '\U{8}' then "\\b"
    else if c == '\U{c}' then "\\f"
    else if c == '\n' then "\\n"
    else if c == '\r' then "\\r"
    else if c == '\t' then "\\t"
    else if c < ' ' || c == '<' || c == '>' || c == '&' then "\\u00" + [HexDigit(c as int / 16), HexDigit(c as int % 16)]
    else if c == '\U{2028}' then "\\u2028"
    else if c == '\U{2029}' then "\\u2029"
    else [c]
  }

  /** The length of the token at the front of an escaped text. */
  function TokenLength(s: string): nat {
    if |s| < 2 || s[0] != '\\' then 1 else if s[1] == 'u' then 6 else 2
  }

  function HexValue(c: char): nat {
    if '0' <= c <= '9' then c as int - '0' as int else if 'a' <= c <= 'f' then c as int - 'a' as int + 10 else 0
  }

  lemma HexRoundTrip(n: nat)
    requires n < 16
    ensures HexValue(HexDigit(n)) == n
  {
  }

  /** Two characters are never written alike, nor one as the beginning of another. */
  lemma EscapeReadable(c: char, d: char, x: string, y: string)
    requires Escape(c) + x == Escape(d) + y
    ensures c == d && x == y
  {
    var (s, t) := (Escape(c) + x, Escape(d) + y);
    TokenOf(c, x);
    TokenOf(d, y);
    assert s[..|Escape(c)|] == Escape(c) && t[..|Escape(d)|] == Escape(d);
    assert s[|Escape(c)|..] == x && t[|Escape(d)|..] == y;
    EscapeInjective(c, d);
  }

  lemma TokenOf(c: char, x: string)
    ensures TokenLength(Escape(c) + x) == |Escape(c)|
  {
    var s := Escape(c) + x;
    assert s[0] == Escape(c)[0];
    if |Escape(c)| > 1 {
      assert s[1] == Escape(c)[1];
    }
  }

  lemma EscapeInjective(c: char, d: char)
    requires Escape(c) == Escape(d)
    ensures c == d
  {
    var (e, f) := (Escape(c), Escape(d));
    if |e| == 6 {
      assert e[2] == f[2] && e[4] == f[4] && e[5] == f[5];
      if e[2] == '0' {
        HexRoundTrip(c as int / 16);
        HexRoundTrip(c as int % 16);
        HexRoundTrip(d as int / 16);
        HexRoundTrip(d as int % 16);
      }
    } else {
      assert e[0] == f[0];
      if |e| == 2 {
        assert e[1] == f[1];
      }
    }
  }

  function CodeOf(hex: string): nat
    requires |hex| == 4
  {
    ((HexValue(hex[0]) * 16 + HexValue(hex[1])) * 16 + HexValue(hex[2])) * 16 + HexValue(hex[3])
  }

  /** The token stands for the character by section 7 of RFC 8259: itself, unless it has to be escaped; one
      of the two-character escapes; or the four hexadecimal digits of its code. */
  predicate StandsFor(token: string, c: char) {
    if |token| == 1 then token == [c] && c >= ' ' && c != '\"' && c != '\\'
    else if |token| == 2 then
      token[0] == '\\' && c ==
        match token[1] {
          case 'b' => 8 as char
          case 'f' => 12 as char
          case 'n' => 10 as char
          case 'r' => 13 as char
          case 't' => 9 as char
          case other => other
        }
      && token[1] in "\"\\/bfnrt"
    else |token| == 6 && token[..2] == "\\u" && CodeOf(token[2..]) == c as int
  }

  /** Every character is written as JSON demands; the three that matter to HTML and the two line separators
      are written by their codes. */
  lemma EscapeStandsFor(c: char)
    ensures StandsFor(Escape(c), c)
    ensures |Escape(c)| == 6 ==> c < ' ' || c in {'<', '>', '&', '\U{2028}', '\U{2029}'}
    ensures c in {'<', '>', '&', '\U{2028}', '\U{2029}'} ==> |Escape(c)| == 6
  {
    var e := Escape(c);
    if |e| == 6 {
      var hex := e[2..];
      assert e[..2] == "\\u";
      if c == '\U{2028}' || c == '\U{2029}' {
        assert hex == if c == '\U{2028}' then "2028" else "2029";
      } else {
        assert hex == "00" + [HexDigit(c as int / 16), HexDigit(c as int % 16)];
        HexRoundTrip(c as int / 16);
        HexRoundTrip(c as int % 16);
      }
    }
  }

  function Escaped(s: string): string {
    if s == "" then "" else Escape(s[0]) + Escaped(s[1..])
  }

  function Quoted(s: string): string {
    "\"" + Escaped(s) + "\""
  }

  /** The rest of a quoted text and what follows it. */
  function Closed(s: string, x: string): string {
    Escaped(s) + "\"" + x
  }

  lemma EscapeStarts(c: char)
    ensures Escape(c) != "" && Escape(c)[0] != '\"'
  {
  }

  lemma ClosedFront(s: string, x: string)
    ensures s == "" ==> Closed(s, x) == "\"" + x && Closed(s, x)[0] == '\"' && Closed(s, x)[1..] == x
    ensures s != "" ==> Closed(s, x) == Escape(s[0]) + Closed(s[1..], x) && Closed(s, x) != "" && Closed(s, x)[0] != '\"'
  {
    hide Escape;
    if s != "" {
      EscapeStarts(s[0]);
    }
  }

  lemma {:induction false} ClosedReadable(s: string, t: string, x: string, y: string)
    requires Closed(s, x) == Closed(t, y)
    ensures s == t && x == y
  {
    hide Escape, Closed;
    ClosedFront(s, x);
    ClosedFront(t, y);
    if s != "" && t != "" {
      EscapeReadable(s[0], t[0], Closed(s[1..], x), Closed(t[1..], y));
      ClosedReadable(s[1..], t[1..], x, y);
      assert s == [s[0]] + s[1..] && t == [t[0]] + t[1..];
    }
  }

  lemma QuotedReadable(s: string, t: string, x: string, y: string)
    requires Quoted(s) + x == Quoted(t) + y
    ensures s == t && x == y
  {
    hide Escaped;
    assert (Quoted(s) + x)[1..] == Closed(s, x);
    assert (Quoted(t) + y)[1..] == Closed(t, y);
    ClosedReadable(s, t, x, y);
  }

  // ---- Numbers ----

  predicate NumberChar(c: char) {
    '0' <= c <= '9' || c == '-' || c == '+' || c == '.' || c == 'e' || c == 'E'
  }

  /** All that matters about a JSON number text: its characters, and that it starts with a digit or a
      minus sign. */
  predicate NumberText(s: string) {
    s != "" && ('0' <= s[0] <= '9' || s[0] == '-') && forall c :: c in s ==> NumberChar(c)
  }

  /** What can follow a value. */
  predicate Delimited(s: string) {
    s == "" || s[0] == ',' || s[0] == ']' || s[0] == '}'
  }

  /** Where one text ends first, what follows it continues the other. */
  lemma NextChar(s: string, t: string, x: string, y: string)
    requires s + x == t + y && |s| < |t|
    ensures x != "" && x[0] in t
  {
    assert (s + x)[|s|] == t[|s|];
  }

  lemma NumberReadable(s: string, t: string, x: string, y: string)
    requires NumberText(s) && NumberText(t) && Delimited(x) && Delimited(y) && s + x == t + y
    ensures s == t && x == y
  {
    if |s| < |t| {
      NextChar(s, t, x, y);
    } else if |t| < |s| {
      NextChar(t, s, y, x);
    }
    assert (s + x)[..|s|] == s && (t + y)[..|t|] == t;
    assert (s + x)[|s|..] == x && (t + y)[|t|..] == y;
  }

  // ---- Regrouping ----

  lemma Regroup3(a: string, b: string, x: string)
    ensures (a + b) + x == a + (b + x)
  {
  }

  lemma Regroup4(a: string, b: string, c: string, x: string)
    ensures ((a + b) + c) + x == a + (b + (c + x))
  {
  }

  lemma Regroup5(a: string, b: string, c: string, d: string, x: string)
    ensures (((a + b) + c) + d) + x == a + (b + ((c + d) + x))
  {
  }

  // ---- Encoding ----

  function Literal(b: bool): string {
    if b then "true" else "false"
  }

  function Encode(o: Ordered): string
    decreases o, 1
  {
    match o
    case ONull => "null"
    case OBool(b) => Literal(b)
    case ONumber(t) => t
    case OString(s) => Quoted(s)
    case OList(items) => "[" + EncodeItems(items) + "]"
    case OMap(pairs) => "{" + EncodePairs(pairs) + "}"
  }

  /** Items joined by commas. */
  function EncodeItems(items: seq<Ordered>): string
    decreases items, 0
  {
    if items == [] then ""
    else if |items| == 1 then Encode(items[0])
    else Encode(items[0]) + "," + EncodeItems(items[1..])
  }

  function EncodePair(p: Pair): string
    decreases p, 2
  {
    Quoted(p.key) + ":" + Encode(p.value)
  }

  function EncodePairs(pairs: seq<Pair>): string
    decreases pairs, 0
  {
    if pairs == [] then ""
    else if |pairs| == 1 then EncodePair(pairs[0])
    else EncodePair(pairs[0]) + "," + EncodePairs(pairs[1..])
  }

  lemma {:induction false} ItemsAppend(items: seq<Ordered>, last: Ordered)
    ensures EncodeItems(items + [last]) == EncodeItems(items) + (if items == [] then "" else ",") + Encode(last)
  {
    if items == [] {
      assert items + [last] == [last];
    } else {
      assert (items + [last])[1..] == items[1..] + [last];
      ItemsAppend(items[1..], last);
      if |items| == 1 {
        assert items[1..] == [];
      }
    }
  }

  lemma {:induction false} PairsAppend(pairs: seq<Pair>, last: Pair)
    ensures EncodePairs(pairs + [last]) == EncodePairs(pairs) + (if pairs == [] then "" else ",") + EncodePair(last)
  {
    hide EncodePair;
    if pairs == [] {
      assert pairs + [last] == [last];
    } else {
      assert (pairs + [last])[1..] == pairs[1..] + [last];
      PairsAppend(pairs[1..], last);
      if |pairs| == 1 {
        assert pairs[1..] == [];
      }
    }
  }

  method Marshal(o: Ordered) returns (out: string)
    ensures out == Encode(o)
    decreases o, 1
  {
    match o
    case ONull => out := "null";
    case OBool(b) => out := Literal(b);
    case ONumber(t) => out := t;
    case OString(s) => out := Quoted(s);
    case OList(items) =>
      out := MarshalItems(items);
      out := "[" + out + "]";
    case OMap(pairs) =>
      out := MarshalPairs(pairs);
      out := "{" + out + "}";
  }

  method MarshalItems(items: seq<Ordered>) returns (out: string)
    ensures out == EncodeItems(items)
    decreases items, 0
  {
    out := "";
    for i := 0 to |items|
      invariant out == EncodeItems(items[..i])
    {
      hide Encode;
      if i > 0 {
        out := out + ",";
      }
      var item := Marshal(items[i]);
      out := out + item;
      assert items[..i + 1] == items[..i] + [items[i]];
      ItemsAppend(items[..i], items[i]);
    }
    assert items[..|items|] == items;
  }

  /** The loop of `MarshalJSON`: commas between the pairs, each pair its key, a colon and its value. */
  method MarshalPairs(pairs: seq<Pair>) returns (out: string)
    ensures out == EncodePairs(pairs)
    decreases pairs, 0
  {
    out := "";
    for i := 0 to |pairs|
      invariant out == EncodePairs(pairs[..i])
    {
      hide Encode, Quoted;
      if i > 0 {
        out := out + ",";
      }
      var pair := MarshalPair(pairs[i]);
      out := out + pair;
      assert pairs[..i + 1] == pairs[..i] + [pairs[i]];
      PairsAppend(pairs[..i], pairs[i]);
    }
    assert pairs[..|pairs|] == pairs;
  }

  method MarshalPair(p: Pair) returns (out: string)
    ensures out == EncodePair(p)
    decreases p, 2
  {
    var value := Marshal(p.value);
    out := Quoted(p.key);
    out := out + ":";
    out := out + value;
  }

  // ---- What the bytes determine ----

  predicate Valid(o: Ordered)
    decreases o
  {
    match o
    case ONumber(t) => NumberText(t)
    case OList(items) => forall i :: 0 <= i < |items| ==> Valid(items[i])
    case OMap(pairs) => forall i :: 0 <= i < |pairs| ==> Valid(pairs[i].value)
    case _ => true
  }

  datatype Kind = KNull | KTrue | KFalse | KNumber | KString | KList | KMap | KNone

  function KindOf(o: Ordered): Kind {
    match o
    case ONull => KNull
    case OBool(b) => if b then KTrue else KFalse
    case ONumber(_) => KNumber
    case OString(_) => KString
    case OList(_) => KList
    case OMap(_) => KMap
  }

  function KindAt(c: char): Kind {
    if c == 'n' then KNull
    else if c == 't' then KTrue
    else if c == 'f' then KFalse
    else if '0' <= c <= '9' || c == '-' then KNumber
    else if c == '\"' then KString
    else if c == '[' then KList
    else if c == '{' then KMap
    else KNone
  }

  /** The first character of an encoding tells its kind. */
  lemma FirstTellsKind(o: Ordered, rest: string)
    requires Valid(o)
    ensures Encode(o) != "" && KindAt((Encode(o) + rest)[0]) == KindOf(o) && KindOf(o) != KNone
  {
    hide EncodeItems, EncodePairs, Escaped;
  }

  lemma EncodeItemsCons(items: seq<Ordered>)
    requires items != []
    ensures EncodeItems(items) == if items[1..] == [] then Encode(items[0]) else Encode(items[0]) + "," + EncodeItems(items[1..])
  {
    hide Encode;
  }

  lemma EncodePairsCons(pairs: seq<Pair>)
    requires pairs != []
    ensures EncodePairs(pairs) == if pairs[1..] == [] then EncodePair(pairs[0]) else EncodePair(pairs[0]) + "," + EncodePairs(pairs[1..])
  {
    hide EncodePair;
  }

  /** The items of a list after its opening bracket, and what follows the list. */
  function ListTail(items: seq<Ordered>, rest: string): string {
    EncodeItems(items) + "]" + rest
  }

  function MapTail(pairs: seq<Pair>, rest: string): string {
    EncodePairs(pairs) + "}" + rest
  }

  /** What follows the first item. */
  function MoreItems(items: seq<Ordered>, rest: string): string {
    if items == [] then "]" + rest else "," + ListTail(items, rest)
  }

  function MorePairs(pairs: seq<Pair>, rest: string): string {
    if pairs == [] then "}" + rest else "," + MapTail(pairs, rest)
  }

  lemma ListTailFront(items: seq<Ordered>, rest: string)
    ensures items == [] ==> ListTail(items, rest) == "]" + rest
    ensures items != [] ==> ListTail(items, rest) == Encode(items[0]) + MoreItems(items[1..], rest)
  {
    hide Encode, EncodeItems;
    if items == [] {
      assert EncodeItems([]) == "" by { NoItems(); }
      assert "" + "]" + rest == "]" + rest;
    } else {
      EncodeItemsCons(items);
      Regroup3(Encode(items[0]), "]", rest);
      Regroup5(Encode(items[0]), ",", EncodeItems(items[1..]), "]", rest);
    }
  }

  lemma NoItems()
    ensures EncodeItems([]) == "" && EncodePairs([]) == ""
  {
  }

  lemma QuotedStarts(s: string)
    ensures Quoted(s) != "" && Quoted(s)[0] == '\"'
  {
  }

  lemma MapTailFront(pairs: seq<Pair>, rest: string)
    ensures pairs == [] ==> MapTail(pairs, rest) == "}" + rest
    ensures pairs != [] ==> MapTail(pairs, rest) == EncodePair(pairs[0]) + MorePairs(pairs[1..], rest)
  {
    hide EncodePair, EncodePairs;
    if pairs == [] {
      NoItems();
      assert "" + "}" + rest == "}" + rest;
    } else {
      EncodePairsCons(pairs);
      Regroup3(EncodePair(pairs[0]), "}", rest);
      Regroup5(EncodePair(pairs[0]), ",", EncodePairs(pairs[1..]), "}", rest);
    }
  }

  lemma PairFront(p: Pair, rest: string)
    ensures EncodePair(p) + rest == Quoted(p.key) + (":" + (Encode(p.value) + rest))
    ensures (EncodePair(p) + rest)[0] == '\"'
  {
    hide Encode, Quoted;
    QuotedStarts(p.key);
    Regroup4(Quoted(p.key), ":", Encode(p.value), rest);
  }

  /** Where one value ends and the next thing starts can be read off the bytes: equal texts begin with
      equal values. */
  lemma {:induction false} Readable(x: Ordered, y: Ordered, s: string, t: string)
    requires Valid(x) && Valid(y) && Delimited(s) && Delimited(t)
    requires Encode(x) + s == Encode(y) + t
    ensures x == y && s == t
    decreases x, 1
  {
    hide Encode, Quoted, NumberText, Delimited, EncodeItems, EncodePairs, ListTail, MapTail, Valid;
    FirstTellsKind(x, s);
    FirstTellsKind(y, t);
    match x
    case ONumber(a) =>
      NumberCase(x, y, s, t);
    case OString(a) =>
      assert y.OString?;
      StringCase(a, y.s, s, t);
    case OList(xs) =>
      assert y.OList?;
      ListOpens(xs, y.items, s, t);
      ValidParts(x);
      ValidParts(y);
      ItemsReadable(xs, y.items, s, t);
    case OMap(xs) =>
      assert y.OMap?;
      MapOpens(xs, y.pairs, s, t);
      ValidParts(x);
      ValidParts(y);
      PairsReadable(xs, y.pairs, s, t);
    case _ => WordCase(x, y, s, t);
  }

  lemma ValidParts(o: Ordered)
    requires Valid(o)
    ensures o.OList? ==> forall i :: 0 <= i < |o.items| ==> Valid(o.items[i])
    ensures o.OMap? ==> forall i :: 0 <= i < |o.pairs| ==> Valid(o.pairs[i].value)
  {
  }

  lemma NumberCase(x: Ordered, y: Ordered, s: string, t: string)
    requires x.ONumber? && y.ONumber? && Valid(x) && Valid(y) && Delimited(s) && Delimited(t) && Encode(x) + s == Encode(y) + t
    ensures x == y && s == t
  {
    NumberReadable(x.text, y.text, s, t);
  }

  lemma StringCase(a: string, b: string, s: string, t: string)
    requires Encode(OString(a)) + s == Encode(OString(b)) + t
    ensures a == b && s == t
  {
    hide Quoted;
    QuotedReadable(a, b, s, t);
  }

  lemma WordCase(x: Ordered, y: Ordered, s: string, t: string)
    requires (x.ONull? || x.OBool?) && KindOf(x) == KindOf(y) && Encode(x) + s == Encode(y) + t
    ensures x == y && s == t
  {
    assert Encode(x) == Encode(y);
    var w := Encode(x);
    assert (w + s)[|w|..] == s && (w + t)[|w|..] == t;
  }

  lemma ListOpens(xs: seq<Ordered>, ys: seq<Ordered>, s: string, t: string)
    requires Encode(OList(xs)) + s == Encode(OList(ys)) + t
    ensures ListTail(xs, s) == ListTail(ys, t)
  {
    hide EncodeItems;
    assert (Encode(OList(xs)) + s)[1..] == ListTail(xs, s);
    assert (Encode(OList(ys)) + t)[1..] == ListTail(ys, t);
  }

  lemma MapOpens(xs: seq<Pair>, ys: seq<Pair>, s: string, t: string)
    requires Encode(OMap(xs)) + s == Encode(OMap(ys)) + t
    ensures MapTail(xs, s) == MapTail(ys, t)
  {
    hide EncodePairs;
    assert (Encode(OMap(xs)) + s)[1..] == MapTail(xs, s);
    assert (Encode(OMap(ys)) + t)[1..] == MapTail(ys, t);
  }

  lemma MoreItemsDelimited(xs: seq<Ordered>, s: string)
    ensures Delimited(MoreItems(xs, s)) && MoreItems(xs, s) != ""
    ensures MoreItems(xs, s)[0] == if xs == [] then ']' else ','
    ensures MoreItems(xs, s)[1..] == if xs == [] then s else ListTail(xs, s)
  {
    hide ListTail;
  }

  lemma MorePairsDelimited(xs: seq<Pair>, s: string)
    ensures Delimited(MorePairs(xs, s)) && MorePairs(xs, s) != ""
    ensures MorePairs(xs, s)[0] == if xs == [] then '}' else ','
    ensures MorePairs(xs, s)[1..] == if xs == [] then s else MapTail(xs, s)
  {
    hide MapTail;
  }

  lemma {:induction false} ItemsReadable(xs: seq<Ordered>, ys: seq<Ordered>, s: string, t: string)
    requires forall i :: 0 <= i < |xs| ==> Valid(xs[i])
    requires forall i :: 0 <= i < |ys| ==> Valid(ys[i])
    requires ListTail(xs, s) == ListTail(ys, t)
    ensures xs == ys && s == t
    decreases xs, 0
  {
    hide Encode, ListTail, MoreItems, Delimited, Valid;
    ListTailFront(xs, s);
    ListTailFront(ys, t);
    if xs != [] && ys != [] {
      MoreItemsDelimited(xs[1..], s);
      MoreItemsDelimited(ys[1..], t);
      Readable(xs[0], ys[0], MoreItems(xs[1..], s), MoreItems(ys[1..], t));
      if xs[1..] != [] {
        ItemsReadable(xs[1..], ys[1..], s, t);
      }
      assert xs == [xs[0]] + xs[1..] && ys == [ys[0]] + ys[1..];
    } else if xs != [] {
      FirstTellsKind(xs[0], MoreItems(xs[1..], s));
      assert false;
    } else if ys != [] {
      FirstTellsKind(ys[0], MoreItems(ys[1..], t));
      assert false;
    } else {
      assert ("]" + s)[1..] == s && ("]" + t)[1..] == t;
    }
  }

  lemma {:induction false} PairsReadable(xs: seq<Pair>, ys: seq<Pair>, s: string, t: string)
    requires forall i :: 0 <= i < |xs| ==> Valid(xs[i].value)
    requires forall i :: 0 <= i < |ys| ==> Valid(ys[i].value)
    requires MapTail(xs, s) == MapTail(ys, t)
    ensures xs == ys && s == t
    decreases xs, 0
  {
    hide Encode, EncodePair, MapTail, MorePairs, Delimited, Valid, Escaped, Quoted;
    MapTailFront(xs, s);
    MapTailFront(ys, t);
    if xs != [] && ys != [] {
      MorePairsDelimited(xs[1..], s);
      MorePairsDelimited(ys[1..], t);
      PairFront(xs[0], MorePairs(xs[1..], s));
      PairFront(ys[0], MorePairs(ys[1..], t));
      FirstPair(xs[0], ys[0], MorePairs(xs[1..], s), MorePairs(ys[1..], t));
      Readable(xs[0].value, ys[0].value, MorePairs(xs[1..], s), MorePairs(ys[1..], t));
      if xs[1..] != [] {
        PairsReadable(xs[1..], ys[1..], s, t);
      }
      assert xs == [xs[0]] + xs[1..] && ys == [ys[0]] + ys[1..];
    } else if xs != [] {
      PairFront(xs[0], MorePairs(xs[1..], s));
      assert false;
    } else if ys != [] {
      PairFront(ys[0], MorePairs(ys[1..], t));
      assert false;
    } else {
      assert ("}" + s)[1..] == s && ("}" + t)[1..] == t;
    }
  }

  lemma FirstPair(x: Pair, y: Pair, s: string, t: string)
    requires Quoted(x.key) + (":" + (Encode(x.value) + s)) == Quoted(y.key) + (":" + (Encode(y.value) + t))
    ensures x.key == y.key && Encode(x.value) + s == Encode(y.value) + t
  {
    hide Quoted, Encode;
    assert Quoted(x.key) + (":" + (Encode(x.value) + s)) == Quoted(y.key) + (":" + (Encode(y.value) + t));
    var (u, v) := (":" + (Encode(x.value) + s), ":" + (Encode(y.value) + t));
    QuotedReadable(x.key, y.key, u, v);
    assert u[1..] == Encode(x.value) + s && v[1..] == Encode(y.value) + t;
  }

  // ---- The signed payload ----

  function Meaning(o: Ordered): Json
    decreases o, 1
  {
    match o
    case ONull => JNull
    case OBool(b) => JBool(b)
    case ONumber(t) => JNumber(t)
    case OString(s) => JString(s)
    case OList(items) => JList(seq(|items|, i requires 0 <= i < |items| => Meaning(items[i])))
    case OMap(pairs) => JObject(Fields(pairs))
  }

  function Fields(pairs: seq<Pair>): map<string, Json>
    decreases pairs, 0
  {
    if pairs == [] then map[]
    else Fields(pairs[..|pairs| - 1])[pairs[|pairs| - 1].key := Meaning(pairs[|pairs| - 1].value)]
  }

  lemma {:induction false} FieldsOf(pairs: seq<Pair>)
    requires forall i, j :: 0 <= i < j < |pairs| ==> pairs[i].key != pairs[j].key
    ensures forall i :: 0 <= i < |pairs| ==> pairs[i].key in Fields(pairs) && Fields(pairs)[pairs[i].key] == Meaning(pairs[i].value)
    ensures forall k :: k in Fields(pairs) ==> exists i :: 0 <= i < |pairs| && pairs[i].key == k
  {
    hide Meaning;
    if pairs != [] {
      FieldsOf(pairs[..|pairs| - 1]);
    }
  }

  /** Normalizing loses nothing. */
  lemma {:induction false} NormalizedKeepsMeaning(v: Json)
    ensures Meaning(Normalized(v)) == v
    decreases v
  {
    match v
    case JList(items) =>
      forall i | 0 <= i < |items|
        ensures Meaning(Normalized(items[i])) == items[i]
      {
        NormalizedKeepsMeaning(items[i]);
      }
    case JObject(fields) =>
      forall k | k in fields
        ensures Meaning(Normalized(fields[k])) == fields[k]
      {
        NormalizedKeepsMeaning(fields[k]);
      }
      ObjectKeepsMeaning(fields);
    case _ =>
  }

  lemma MeaningOfMap(pairs: seq<Pair>)
    ensures Meaning(OMap(pairs)) == JObject(Fields(pairs))
  {
  }

  lemma PairsGiveFields(fields: map<string, Json>, keys: seq<string>, pairs: seq<Pair>)
    requires Enumerates(keys, fields.Keys) && |pairs| == |keys|
    requires forall i :: 0 <= i < |keys| ==> pairs[i].key == keys[i] && keys[i] in fields && Meaning(pairs[i].value) == fields[keys[i]]
    ensures Fields(pairs) == fields
  {
    hide Meaning, Fields;
    FieldsOf(pairs);
    forall k | k in fields
      ensures k in Fields(pairs) && Fields(pairs)[k] == fields[k]
    {
      var i :| 0 <= i < |keys| && keys[i] == k;
      assert pairs[i].key == k;
    }
  }

  lemma ObjectKeepsMeaning(fields: map<string, Json>)
    requires forall k :: k in fields ==> Meaning(Normalized(fields[k])) == fields[k]
    ensures Meaning(Normalized(JObject(fields))) == JObject(fields)
  {
    hide Normalized, Meaning, Fields;
    NormalizedPairs(fields);
    var o := Normalized(JObject(fields));
    PairsGiveFields(fields, SortedKeys(fields.Keys), o.pairs);
    MeaningOfMap(o.pairs);
  }

  /** The numbers of a payload are number texts, as a JSON decoder leaves them. */
  ghost predicate Decoded(v: Json)
    decreases v
  {
    match v
    case JNumber(t) => NumberText(t)
    case JList(items) => forall i :: 0 <= i < |items| ==> Decoded(items[i])
    case JObject(fields) => forall k :: k in fields ==> Decoded(fields[k])
    case _ => true
  }

  lemma {:induction false} NormalizedValid(v: Json)
    requires Decoded(v)
    ensures Valid(Normalized(v))
    decreases v
  {
    match v
    case JList(items) =>
      forall i | 0 <= i < |items|
        ensures Valid(Normalized(items[i]))
      {
        NormalizedValid(items[i]);
      }
    case JObject(fields) =>
      var keys := SortedKeys(fields.Keys);
      forall i | 0 <= i < |keys|
        ensures keys[i] in fields && Valid(Normalized(fields[keys[i]]))
      {
        assert keys[i] in fields.Keys;
        NormalizedValid(fields[keys[i]]);
      }
    case _ =>
  }

  /** The bytes that a signature covers. */
  ghost function CanonicalBytes(payload: map<string, Json>): string {
    Encode(Normalized(JObject(payload - {"signature"})))
  }

  /** `CanonicalJSONWithoutSignature`: copy without the signature, normalize, encode.  Whatever order the
      maps are iterated in, the result is the one that the mapping determines. */
  method CanonicalWithoutSignature(payload: map<string, Json>) returns (bytes: string)
    ensures bytes == CanonicalBytes(payload)
    ensures exists o :: bytes == Encode(o) && Ascending(o) && Meaning(o) == JObject(payload - {"signature"})
  {
    var copied: map<string, Json> := map[];
    var todo := payload.Keys;
    while todo != {}
      invariant todo <= payload.Keys
      invariant copied == map k | k in payload && k !in todo && k != "signature" :: payload[k]
    {
      var k :| k in todo;
      todo := todo - {k};
      if k != "signature" {
        copied := copied[k := payload[k]];
      }
    }
    assert copied == payload - {"signature"};
    var ordered := Normalize(JObject(copied));
    bytes := Marshal(ordered);
    assert bytes == Encode(ordered) && Ascending(ordered) && Meaning(ordered) == JObject(payload - {"signature"});
  }

  /** Two decoded payloads have the same signed bytes exactly when they are the same apart from their
      signatures. */
  lemma SignedBytesDeterminePayload(p: map<string, Json>, q: map<string, Json>)
    requires Decoded(JObject(p)) && Decoded(JObject(q))
    ensures CanonicalBytes(p) == CanonicalBytes(q) <==> p - {"signature"} == q - {"signature"}
  {
    hide Encode, Normalized, Meaning, Valid;
    if CanonicalBytes(p) == CanonicalBytes(q) {
      var (a, b) := (JObject(p - {"signature"}), JObject(q - {"signature"}));
      NormalizedValid(a);
      NormalizedValid(b);
      assert Encode(Normalized(a)) + "" == Encode(Normalized(b)) + "";
      Readable(Normalized(a), Normalized(b), "", "");
      NormalizedKeepsMeaning(a);
      NormalizedKeepsMeaning(b);
    }
  }

  // ---- One payload, byte by byte ----

  lemma TwoSortedKeys()
    ensures SortedKeys({"a", "b"}) == ["a", "b"]
  {
    var keys := ["a", "b"];
    assert "a"[0] != "b"[0];
    assert [Text("a")] == [Text("a")] + [] && [Text("b")] == [Text("b")] + [];
    KeyLessStep(Text("b"), [], Text("a"), []);
    assert Sorted(keys, TextKey);
    assert Enumerates(keys, {"a", "b"});
    SortingGivesSortedKeys(keys, keys, {"a", "b"});
  }

  function ExampleList(): Json {
    JList([JNull, JBool(true), JBool(false), JString("<\n")])
  }

  function ExampleOrderedList(): Ordered {
    OList([ONull, OBool(true), OBool(false), OString("<\n")])
  }

  lemma FourItems(w: Ordered, x: Ordered, y: Ordered, z: Ordered)
    ensures EncodeItems([w, x, y, z]) == Encode(w) + "," + (Encode(x) + "," + (Encode(y) + "," + Encode(z)))
  {
    hide Encode, EncodeItems;
    assert [w, x, y, z][1..] == [x, y, z] && [x, y, z][1..] == [y, z] && [y, z][1..] == [z] && [z][1..] == [];
    EncodeItemsCons([w, x, y, z]);
    EncodeItemsCons([x, y, z]);
    EncodeItemsCons([y, z]);
    EncodeItemsCons([z]);
  }

  lemma TwoPairs(p: Pair, q: Pair)
    ensures EncodePairs([p, q]) == EncodePair(p) + "," + EncodePair(q)
  {
    hide EncodePair;
    assert [p, q][1..] == [q];
  }

  lemma ExampleText()
    ensures Quoted("<\n") == "\"\\u003c\\n\""
  {
    assert Escape('<') == "\\u00" + [HexDigit(3), HexDigit(12)] == "\\u003c";
    assert "<\n"[1..] == "\n" && "\n"[1..] == "";
    assert Escaped("\n") == "\\n";
  }

  lemma ExampleItems()
    ensures Normalized(ExampleList()) == ExampleOrderedList()
    ensures Encode(ExampleOrderedList()) == "[null,true,false,\"\\u003c\\n\"]"
  {
    hide Quoted, EncodeItems;
    ExampleText();
    FourItems(ONull, OBool(true), OBool(false), OString("<\n"));
  }

  lemma PlainQuoted(c: char)
    requires c in {'a', 'b'}
    ensures Quoted([c]) == ['\"', c, '\"']
  {
    assert [c][1..] == "" && Escape(c) == [c];
    assert Escaped([c]) == [c];
  }

  /** What is signed for one payload with every kind of value, its keys given in the other order. */
  lemma SignedBytesExample()
    ensures CanonicalBytes(map["b" := JNumber("2"), "a" := ExampleList(), "signature" := JString("s")])
         == "{\"a\":[null,true,false,\"\\u003c\\n\"],\"b\":2}"
  {
    hide Escape, Encode;
    var fields := map["b" := JNumber("2"), "a" := ExampleList()];
    assert "signature" != "a" && "signature" != "b" && "a"[0] != "b"[0];
    assert map["b" := JNumber("2"), "a" := ExampleList(), "signature" := JString("s")] - {"signature"} == fields;
    assert fields.Keys == {"a", "b"};
    TwoSortedKeys();
    NormalizedPairs(fields);
    ExampleItems();
    var pairs := Normalized(JObject(fields)).pairs;
    assert pairs == [Pair("a", ExampleOrderedList()), Pair("b", ONumber("2"))];
    ExamplePairs(pairs);
  }

  lemma ExamplePairs(pairs: seq<Pair>)
    requires pairs == [Pair("a", ExampleOrderedList()), Pair("b", ONumber("2"))]
    ensures Encode(OMap(pairs)) == "{\"a\":[null,true,false,\"\\u003c\\n\"],\"b\":2}"
  {
    hide ExampleOrderedList, EncodePairs, EncodePair;
    TwoPairs(pairs[0], pairs[1]);
    ExampleFirst();
    ExampleSecond();
  }

  lemma ExampleFirst()
    ensures EncodePair(Pair("a", ExampleOrderedList())) == "\"a\":[null,true,false,\"\\u003c\\n\"]"
  {
    hide Encode, Quoted;
    ExampleItems();
    PlainQuoted('a');
  }

  lemma ExampleSecond()
    ensures EncodePair(Pair("b", ONumber("2"))) == "\"b\":2"
  {
    hide Quoted;
    PlainQuoted('b');
  }

  // ---- The Python client's form ----

  function Hex4(n: nat): string
    requires n < 0x1_0000
  {
    [HexDigit(n / 4096), HexDigit(n / 256 % 16), HexDigit(n / 16 % 16), HexDigit(n % 16)]
  }

  /** The Python client escapes nothing for HTML and everything outside printable ASCII. */
  function PythonEscape(c: char): string {
    if c == '\"' then "\\\""
    else if c == '\\' then "\\\\"
    else if c == '\U{8}' then "\\b"
    else if c == '\U{c}' then "\\f"
    else if c == '\n' then "\\n"
    else if c == '\r' then "\\r"
    else if c == '\t' then "\\t"
    else if ' ' <= c <= '~' then [c]
    else if c as int < 0x1_0000 then "\\u" + Hex4(c as int)
    else "\\u" + Hex4(0xd800 + (c as int - 0x1_0000) / 0x400) + "\\u" + Hex4(0xdc00 + (c as int - 0x1_0000) % 0x400)
  }

  function PythonEscaped(s: string): string {
    if s == "" then "" else PythonEscape(s[0]) + PythonEscaped(s[1..])
  }

  function PythonQuoted(s: string): string {
    "\"" + PythonEscaped(s) + "\""
  }

  function PythonEncode(o: Ordered): string
    decreases o, 1
  {
    match o
    case ONull => "null"
    case OBool(b) => Literal(b)
    case ONumber(t) => t
    case OString(s) => PythonQuoted(s)
    case OList(items) => "[" + PythonItems(items) + "]"
    case OMap(pairs) => "{" + PythonPairs(pairs) + "}"
  }

  function PythonItems(items: seq<Ordered>): string
    decreases items, 0
  {
    if items == [] then ""
    else if |items| == 1 then PythonEncode(items[0])
    else PythonEncode(items[0]) + "," + PythonItems(items[1..])
  }

  function PythonPair(p: Pair): string
    decreases p, 2
  {
    PythonQuoted(p.key) + ":" + PythonEncode(p.value)
  }

  function PythonPairs(pairs: seq<Pair>): string
    decreases pairs, 0
  {
    if pairs == [] then ""
    else if |pairs| == 1 then PythonPair(pairs[0])
    else PythonPair(pairs[0]) + "," + PythonPairs(pairs[1..])
  }

  predicate WrittenAlike(c: char) {
    (c <= '~' && c != '<' && c != '>' && c != '&') || c == '\U{2028}' || c == '\U{2029}'
  }

  predicate TextAlike(s: string) {
    forall i :: 0 <= i < |s| ==> WrittenAlike(s[i])
  }

  /** Every text in the payload, keys included, consists of characters that both clients write alike. */
  predicate Alike(o: Ordered)
    decreases o, 1
  {
    match o
    case OString(s) => TextAlike(s)
    case OList(items) => ItemsAlike(items)
    case OMap(pairs) => PairsAlike(pairs)
    case _ => true
  }

  predicate ItemsAlike(items: seq<Ordered>)
    decreases items, 0
  {
    items != [] ==> Alike(items[0]) && ItemsAlike(items[1..])
  }

  predicate PairAlike(p: Pair)
    decreases p, 2
  {
    TextAlike(p.key) && Alike(p.value)
  }

  predicate PairsAlike(pairs: seq<Pair>)
    decreases pairs, 0
  {
    pairs != [] ==> PairAlike(pairs[0]) && PairsAlike(pairs[1..])
  }

  lemma ControlAlike(c: char)
    requires c < ' '
    ensures Escape(c) == PythonEscape(c)
  {
    var n := c as int;
    assert n / 4096 == 0 && n / 256 % 16 == 0 && n / 16 % 16 == n / 16;
    assert Hex4(n) == "00" + [HexDigit(n / 16), HexDigit(n % 16)];
    assert "\\u" + ("00" + [HexDigit(n / 16), HexDigit(n % 16)]) == "\\u00" + [HexDigit(n / 16), HexDigit(n % 16)];
  }

  lemma SeparatorAlike(c: char)
    requires c == '\U{2028}' || c == '\U{2029}'
    ensures Escape(c) == PythonEscape(c)
  {
    var n := c as int;
    assert n / 4096 == 2 && n / 256 % 16 == 0 && n / 16 % 16 == 2 && (n % 16 == 8 || n % 16 == 9);
    assert Hex4(n) == (if n == 0x2028 then "2028" else "2029");
  }

  lemma PythonEscapeStarts(c: char)
    ensures PythonEscape(c) != ""
    ensures (c < ' ' || c > '~') ==> PythonEscape(c)[0] == '\\'
    ensures c == '<' || c == '>' || c == '&' ==> PythonEscape(c) == [c]
  {
    hide Hex4;
  }

  lemma CharAlikeIff(c: char)
    ensures WrittenAlike(c) ==> Escape(c) == PythonEscape(c)
    ensures Escape(c) != "" && PythonEscape(c) != ""
    ensures !WrittenAlike(c) ==> Escape(c)[0] != PythonEscape(c)[0]
  {
    PythonEscapeStarts(c);
    if c < ' ' {
      ControlAlike(c);
    } else if c == '\U{2028}' || c == '\U{2029}' {
      SeparatorAlike(c);
    } else if c > '~' {
      hide PythonEscape;
    }
  }

  lemma TextAlikeSplit(s: string)
    requires s != ""
    ensures TextAlike(s) <==> WrittenAlike(s[0]) && TextAlike(s[1..])
  {
    hide WrittenAlike;
    if WrittenAlike(s[0]) && TextAlike(s[1..]) {
      forall i | 0 <= i < |s|
        ensures WrittenAlike(s[i])
      {
        assert i > 0 ==> s[i] == s[1..][i - 1];
      }
    }
  }

  lemma TextAlikeOfNone()
    ensures TextAlike("")
  {
  }

  /** Reading both forms side by side, the first character that is not written alike shows. */
  lemma {:induction false} TextsAgree(s: string, x: string, y: string)
    ensures Escaped(s) + x == PythonEscaped(s) + y <==> TextAlike(s) && x == y
  {
    hide Escape, PythonEscape, WrittenAlike, TextAlike;
    TextAlikeOfNone();
    if s == "" {
      assert "" + x == x && "" + y == y;
    } else {
      var (a, b) := (Escaped(s[1..]) + x, PythonEscaped(s[1..]) + y);
      CharAlikeIff(s[0]);
      TextsAgree(s[1..], x, y);
      assert Escaped(s) + x == Escape(s[0]) + a && PythonEscaped(s) + y == PythonEscape(s[0]) + b;
      TextAlikeSplit(s);
      if WrittenAlike(s[0]) {
        SameFront(Escape(s[0]), a, b);
      } else {
        assert (Escape(s[0]) + a)[0] == Escape(s[0])[0] && (PythonEscape(s[0]) + b)[0] == PythonEscape(s[0])[0];
      }
    }
  }

  lemma SameFront(front: string, a: string, b: string)
    ensures front + a == front + b <==> a == b
  {
    assert (front + a)[|front|..] == a && (front + b)[|front|..] == b;
  }

  lemma QuotedAgree(s: string, x: string, y: string)
    ensures Quoted(s) + x == PythonQuoted(s) + y <==> TextAlike(s) && x == y
  {
    hide Escaped, PythonEscaped, TextAlike;
    var (u, v) := ("\"" + x, "\"" + y);
    SameFront("\"", x, y);
    TextsAgree(s, u, v);
    SameFront("\"", Escaped(s) + u, PythonEscaped(s) + v);
    Regroup4("\"", Escaped(s), "\"", x);
    Regroup4("\"", PythonEscaped(s), "\"", y);
  }

  lemma {:induction false} FormsAgree(o: Ordered, x: string, y: string)
    ensures Encode(o) + x == PythonEncode(o) + y <==> Alike(o) && x == y
    decreases o, 1
  {
    hide Quoted, PythonQuoted, TextAlike, EncodeItems, EncodePairs, PythonItems, PythonPairs;
    match o
    case OString(s) => QuotedAgree(s, x, y);
    case OList(items) =>
      var (u, v) := ("]" + x, "]" + y);
      SameFront("]", x, y);
      ItemsAgree(items, u, v);
      SameFront("[", EncodeItems(items) + u, PythonItems(items) + v);
      Regroup4("[", EncodeItems(items), "]", x);
      Regroup4("[", PythonItems(items), "]", y);
    case OMap(pairs) =>
      var (u, v) := ("}" + x, "}" + y);
      SameFront("}", x, y);
      PairsAgree(pairs, u, v);
      SameFront("{", EncodePairs(pairs) + u, PythonPairs(pairs) + v);
      Regroup4("{", EncodePairs(pairs), "}", x);
      Regroup4("{", PythonPairs(pairs), "}", y);
    case _ => SameFront(Encode(o), x, y);
  }

  lemma {:induction false} ItemsAgree(items: seq<Ordered>, x: string, y: string)
    ensures EncodeItems(items) + x == PythonItems(items) + y
      <==> ItemsAlike(items) && x == y
    decreases items, 0
  {
    hide Encode, PythonEncode, Alike;
    if items == [] {
      assert "" + x == x && "" + y == y;
    } else if |items| == 1 {
      FormsAgree(items[0], x, y);
    } else if |items| > 1 {
      var (a, b) := (EncodeItems(items[1..]) + x, PythonItems(items[1..]) + y);
      FormsAgree(items[0], "," + a, "," + b);
      SameFront(",", a, b);
      ItemsAgree(items[1..], x, y);
      Regroup4(Encode(items[0]), ",", EncodeItems(items[1..]), x);
      Regroup4(PythonEncode(items[0]), ",", PythonItems(items[1..]), y);
    }
  }

  lemma {:induction false} PairAgrees(p: Pair, x: string, y: string)
    ensures EncodePair(p) + x == PythonPair(p) + y <==> PairAlike(p) && x == y
    decreases p, 2
  {
    hide Quoted, PythonQuoted, Encode, PythonEncode, TextAlike, Alike;
    var (a, b) := (Encode(p.value) + x, PythonEncode(p.value) + y);
    QuotedAgree(p.key, ":" + a, ":" + b);
    SameFront(":", a, b);
    FormsAgree(p.value, x, y);
    Regroup4(Quoted(p.key), ":", Encode(p.value), x);
    Regroup4(PythonQuoted(p.key), ":", PythonEncode(p.value), y);
  }

  lemma {:induction false} PairsAgree(pairs: seq<Pair>, x: string, y: string)
    ensures EncodePairs(pairs) + x == PythonPairs(pairs) + y
      <==> PairsAlike(pairs) && x == y
    decreases pairs, 0
  {
    hide EncodePair, PythonPair, PairAlike;
    if pairs == [] {
      assert "" + x == x && "" + y == y;
    } else if |pairs| == 1 {
      PairAgrees(pairs[0], x, y);
    } else if |pairs| > 1 {
      var (a, b) := (EncodePairs(pairs[1..]) + x, PythonPairs(pairs[1..]) + y);
      PairAgrees(pairs[0], "," + a, "," + b);
      SameFront(",", a, b);
      PairsAgree(pairs[1..], x, y);
      Regroup4(EncodePair(pairs[0]), ",", EncodePairs(pairs[1..]), x);
      Regroup4(PythonPair(pairs[0]), ",", PythonPairs(pairs[1..]), y);
    }
  }

  /** The portal checks the Python client's signature over the very bytes that were signed exactly when
      no text of the payload holds a character that the two write differently: one of the three that
      the portal escapes for HTML, or one that only the client escapes. */
  lemma PythonSignsTheSameBytesIff(payload: map<string, Json>)
    ensures CanonicalBytes(payload) == PythonEncode(Normalized(JObject(payload - {"signature"})))
      <==> Alike(Normalized(JObject(payload - {"signature"})))
  {
    hide Encode, PythonEncode, Normalized, Alike;
    var o := Normalized(JObject(payload - {"signature"}));
    FormsAgree(o, "", "");
    assert Encode(o) + "" == Encode(o) && PythonEncode(o) + "" == PythonEncode(o);
  }
}
