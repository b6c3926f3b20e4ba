/** Reading the parameters of a WWW-Authenticate challenge (section 11.6.1 of RFC 9110) of the
    Bearer scheme (section 3 of RFC 6750). */
module Challenge {
  import opened Wrappers

  // ---------- strings ----------

  // The characters Unicode calls white space.
  predicate IsSpace(c: char) {
    || '\t' <= c <= '\r' || c == ' ' || c == '\U{85}' || c == '\U{A0}' || c == '\U{1680}'
    || '\U{2000}' <= c <= '\U{200A}' || c == '\U{2028}' || c == '\U{2029}' || c == '\U{202F}' || c == '\U{205F}'
    || c == '\U{3000}'
  }

  function TrimLeft(s: string): (t: string)
    ensures |t| <= |s| && (t != "" ==> !IsSpace(t[0]) && t[|t| - 1] == s[|s| - 1])
  {
    if s != "" && IsSpace(s[0]) then TrimLeft(s[1..]) else s
  }

  function TrimRight(s: string): (t: string)
    ensures t <= s && (t != "" ==> !IsSpace(t[|t| - 1]))
  {
    if s != "" && IsSpace(s[|s| - 1]) then TrimRight(s[..|s| - 1]) else s
  }

  function Trim(s: string): (t: string)
    ensures |t| <= |s|
    ensures t != "" ==> !IsSpace(t[0]) && !IsSpace(t[|t| - 1])
    ensures s != "" && !IsSpace(s[0]) && !IsSpace(s[|s| - 1]) ==> t == s
  {
    TrimRight(TrimLeft(s))
  }

  // The first place c is at, or the end.
  function IndexOf(s: string, c: char): (i: nat)
    ensures i <= |s| && (forall k :: 0 <= k < i ==> s[k] != c) && (i < |s| ==> s[i] == c)
  {
    if s == "" || s[0] == c then 0 else 1 + IndexOf(s[1..], c)
  }

  lemma IndexIsFirst(before: string, c: char, rest: string)
    requires c !in before
    ensures IndexOf(before + [c] + rest, c) == |before|
  {
    var s := before + [c] + rest;
    assert s[|before|] == c && forall k :: 0 <= k < |before| ==> s[k] == before[k];
  }

  function TrimComma(s: string): string { if s != "" && s[0] == ',' then s[1..] else s }

  function LowerChar(c: char): char { if 'A' <= c <= 'Z' then (c as int + 32) as char else c }

  // Whether s spells bearer, in any case. No other character folds to one of its letters.
  predicate IsBearer(s: string) {
    |s| == 6 && forall i :: 0 <= i < 6 ==> LowerChar(s[i]) == "bearer"[i]
  }

  // ---------- the parser ----------

  type Params = map<string, string>

  // One parameter at the front of rest, and what follows its value.
  datatype Piece = Malformed | Piece(key: string, value: string, rest: string)

  function NextPiece(lower: string -> string, rest: string): (p: Piece)
    ensures p.Piece? ==> |p.rest| <= |rest|
    ensures p.Piece? && |p.rest| == |rest| ==> p.rest != "" && p.rest[0] == ','
  {
    var eq := IndexOf(rest, '=');
    if eq == |rest| then Malformed else
    var key, after := lower(Trim(rest[..eq])), rest[eq + 1..];
    if after != "" && after[0] == '"' then
      var end := IndexOf(after[1..], '"');
      if end == |after| - 1 then Malformed else Piece(key, after[1..end + 1], after[end + 2..])
    else
      var comma := IndexOf(after, ',');
      Piece(key, after[..comma], "," + if comma < |after| then after[comma + 1..] else "")
  }

  /** What remains strictly shrinks, whatever the text, so the loop ends on every input. */
  lemma RestShrinks(lower: string -> string, rest: string)
    requires NextPiece(lower, rest).Piece?
    ensures |Trim(TrimComma(Trim(NextPiece(lower, rest).rest)))| < |rest|
  {
    var after := NextPiece(lower, rest).rest;
    var trimmed := Trim(after);
    if |trimmed| == |rest| {
      assert |after| == |rest|;
      CommaStays(after);
    }
  }

  lemma CommaStays(s: string)
    requires s != "" && s[0] == ','
    ensures Trim(s) != "" && Trim(s)[0] == ','
  {
    assert TrimLeft(s) == s;
    CommaStaysRight(s);
  }

  lemma {:induction false} CommaStaysRight(s: string)
    requires s != "" && s[0] == ','
    ensures TrimRight(s) != "" && TrimRight(s)[0] == ','
  {
    if IsSpace(s[|s| - 1]) {
      CommaStaysRight(s[..|s| - 1]);
    }
  }

  // The parameters in rest, added to params; none when it is malformed.
  function ParamsOf(lower: string -> string, rest: string, params: Params): Option<Params>
    decreases |rest|
  {
    if rest == "" then Some(params) else
    var p := NextPiece(lower, rest);
    if p.Malformed? then None else
    RestShrinks(lower, rest);
    ParamsOf(lower, Trim(TrimComma(Trim(p.rest))), params[p.key := p.value])
  }

  // The parameters after the scheme.
  function Parsed(lower: string -> string, h: string): Option<Params> {
    var text := Trim(h);
    var space := IndexOf(text, ' ');
    if space == |text| || !IsBearer(text[..space]) then None
    else ParamsOf(lower, Trim(text[space + 1..]), map[])
  }

  method ReadPiece(lower: string -> string, rest: string) returns (p: Piece)
    ensures p == NextPiece(lower, rest)
    ensures p.Piece? ==> |Trim(TrimComma(Trim(p.rest)))| < |rest|
  {
    hide Trim, TrimComma, IndexOf;
    if NextPiece(lower, rest).Piece? {
      RestShrinks(lower, rest);
    }
    var eq := IndexOf(rest, '=');
    if eq == |rest| {
      return Malformed;
    }
    var key, after := lower(Trim(rest[..eq])), rest[eq + 1..];
    if after != "" && after[0] == '"' {
      var end := IndexOf(after[1..], '"');
      if end == |after| - 1 {
        return Malformed;
      }
      return Piece(key, after[1..end + 1], after[end + 2..]);
    }
    var comma := IndexOf(after, ',');
    return Piece(key, after[..comma], "," + if comma < |after| then after[comma + 1..] else "");
  }

  method ParseBearerChallenge(lower: string -> string, h: string) returns (params: Params, ok: bool)
    ensures params == if Parsed(lower, h).Some? then Parsed(lower, h).value else map[]
    ensures ok == (Parsed(lower, h).Some? && "realm" in params && params["realm"] != "")
  {
    var text := Trim(h);
    var space := IndexOf(text, ' ');
    if space == |text| || !IsBearer(text[..space]) {
      return map[], false;
    }
    params := map[];
    var rest := Trim(text[space + 1..]);
    while rest != ""
      invariant Parsed(lower, h) == ParamsOf(lower, rest, params)
      decreases |rest|
    {
      var p := ReadPiece(lower, rest);
      if p.Malformed? {
        return map[], false;
      }
      params := params[p.key := p.value];
      rest := Trim(TrimComma(Trim(p.rest)));
    }
    ok := "realm" in params && params["realm"] != "";
  }

  // ---------- the printer ----------

  datatype Item = Item(key: string, value: string, quoted: bool)

  // What can be printed: the key is one the parser leaves alone, and the value does not hold
  // what ends it.
  predicate Printable(lower: string -> string, item: Item) {
    && lower(item.key) == item.key && '=' !in item.key && Trimmed(item.key)
    && if item.quoted then '"' !in item.value
       else ',' !in item.value && TrimRight(item.value) == item.value && (item.value != "" ==> item.value[0] != '"')
  }

  predicate Trimmed(s: string) { s != "" ==> !IsSpace(s[0]) && !IsSpace(s[|s| - 1]) }

  function ValueText(item: Item): string { if item.quoted then "\"" + item.value + "\"" else item.value }

  function OwnText(item: Item): string { item.key + "=" + ValueText(item) }

  function Tail(items: seq<Item>): string
    decreases |items|, 1
  {
    if items == [] then "" else "," + Text(items)
  }

  function Text(items: seq<Item>): string
    decreases |items|, 0
  {
    if items == [] then "" else OwnText(items[0]) + Tail(items[1..])
  }

  function Print(items: seq<Item>): string { "Bearer " + Text(items) }

  // The parameters of the items, the later of two with one key winning.
  function AddAll(params: Params, items: seq<Item>): Params
    decreases |items|
  {
    if items == [] then params else AddAll(params[items[0].key := items[0].value], items[1..])
  }

  // ---------- round trip ----------

  ghost predicate AllPrintable(lower: string -> string, items: seq<Item>) {
    forall i :: 0 <= i < |items| ==> Printable(lower, items[i])
  }

  lemma OwnTextTrimmed(lower: string -> string, item: Item)
    requires Printable(lower, item)
    ensures OwnText(item) != "" && Trimmed(OwnText(item))
  {
    var text := OwnText(item);
    assert text[0] == if item.key == "" then '=' else item.key[0];
    assert text[|text| - 1] == if ValueText(item) == "" then '=' else ValueText(item)[|ValueText(item)| - 1];
  }

  lemma JoinTrimmed(s: string, t: string)
    requires s != "" && Trimmed(s) && (t != "" ==> !IsSpace(t[|t| - 1]))
    ensures Trimmed(s + t)
  {
    assert t == "" ==> s + t == s;
  }

  lemma {:induction false} TextTrimmed(lower: string -> string, items: seq<Item>)
    requires AllPrintable(lower, items) && items != []
    ensures Text(items) != "" && Trimmed(Text(items))
  {
    assert Printable(lower, items[0]);
    OwnTextTrimmed(lower, items[0]);
    var rest := items[1..];
    if rest != [] {
      TextTrimmed(lower, rest);
      JoinTrimmed(",", Text(rest));
    }
    JoinTrimmed(OwnText(items[0]), Tail(rest));
  }

  lemma KeyPiece(lower: string -> string, key: string, after: string)
    requires lower(key) == key && '=' !in key && Trimmed(key)
    ensures var text := key + "=" + after;
            && IndexOf(text, '=') == |key| < |text| && lower(Trim(text[..|key|])) == key && text[|key| + 1..] == after
  {
    IndexIsFirst(key, '=', after);
    assert key + "=" + after == key + ['='] + after;
    assert (key + "=" + after)[..|key|] == key;
  }

  lemma QuotedPiece(value: string, tail: string)
    requires '"' !in value
    ensures var after := "\"" + value + "\"" + tail;
            && IndexOf(after[1..], '"') == |value| < |after| - 1
            && after[1..|value| + 1] == value && after[|value| + 2..] == tail
  {
    IndexIsFirst(value, '"', tail);
    assert ("\"" + value + "\"" + tail)[1..] == value + ['"'] + tail;
  }

  lemma TokenPiece(value: string, next: string)
    requires ',' !in value
    ensures IndexOf(value, ',') == |value| && value[..|value|] == value
    ensures var after := value + "," + next;
            IndexOf(after, ',') == |value| < |after| && after[..|value|] == value && after[|value| + 1..] == next
  {
    IndexIsFirst(value, ',', next);
    assert value + "," + next == value + [','] + next;
  }

  lemma PieceOfQuoted(lower: string -> string, item: Item, tail: string)
    requires Printable(lower, item) && item.quoted
    ensures NextPiece(lower, item.key + "=" + (ValueText(item) + tail)) == Piece(item.key, item.value, tail)
  {
    KeyPiece(lower, item.key, ValueText(item) + tail);
    QuotedPiece(item.value, tail);
  }

  lemma PieceOfToken(lower: string -> string, item: Item, next: string)
    requires Printable(lower, item) && !item.quoted
    ensures NextPiece(lower, item.key + "=" + item.value) == Piece(item.key, item.value, ",")
    ensures NextPiece(lower, item.key + "=" + (item.value + "," + next)) == Piece(item.key, item.value, "," + next)
  {
    KeyPiece(lower, item.key, item.value);
    KeyPiece(lower, item.key, item.value + "," + next);
    TokenPiece(item.value, next);
    assert (item.value + "," + next)[0] == if item.value == "" then ',' else item.value[0];
  }

  lemma Regroup(a: string, b: string, c: string)
    ensures a + b + c == a + (b + c)
  {
  }

  // What the parser makes of the first item, and of what follows it.
  lemma FirstPiece(lower: string -> string, items: seq<Item>)
    requires AllPrintable(lower, items) && items != []
    ensures NextPiece(lower, Text(items)) == Piece(items[0].key, items[0].value,
              if items[0].quoted then Tail(items[1..]) else "," + Text(items[1..]))
  {
    var item, rest := items[0], items[1..];
    assert Printable(lower, item);
    Regroup(item.key + "=", ValueText(item), Tail(rest));
    if item.quoted {
      PieceOfQuoted(lower, item, Tail(rest));
    } else {
      PieceOfToken(lower, item, Text(rest));
      if rest == [] {
        assert item.value + Tail(rest) == item.value;
        assert "," + Text(rest) == ",";
      } else {
        Regroup(item.value, ",", Text(rest));
      }
    }
  }

  lemma CommaThenText(lower: string -> string, items: seq<Item>)
    requires AllPrintable(lower, items)
    ensures Trim(TrimComma(Trim("," + Text(items)))) == Text(items)
    ensures Trim(TrimComma(Trim(Tail(items)))) == Text(items)
  {
    if items != [] {
      TextTrimmed(lower, items);
    }
    var s := "," + Text(items);
    assert !IsSpace(s[|s| - 1]);
    assert Trim(s) == s && s[1..] == Text(items);
  }

  lemma {:induction false} ItemsParse(lower: string -> string, items: seq<Item>, params: Params)
    requires AllPrintable(lower, items)
    ensures ParamsOf(lower, Text(items), params) == Some(AddAll(params, items))
    decreases |items|
  {
    if items != [] {
      TextTrimmed(lower, items);
      FirstPiece(lower, items);
      CommaThenText(lower, items[1..]);
      ItemsParse(lower, items[1..], params[items[0].key := items[0].value]);
    }
  }

  lemma {:induction false} AddAllKeepsOthers(params: Params, items: seq<Item>, key: string)
    requires forall i :: 0 <= i < |items| ==> items[i].key != key
    ensures key in AddAll(params, items) <==> key in params
    ensures key in params ==> AddAll(params, items)[key] == params[key]
    decreases |items|
  {
    if items != [] {
      AddAllKeepsOthers(params[items[0].key := items[0].value], items[1..], key);
    }
  }

  ghost predicate DistinctKeys(items: seq<Item>) {
    forall i, j :: 0 <= i < j < |items| ==> items[i].key != items[j].key
  }

  // params holds exactly the items.
  ghost predicate Exactly(params: Params, items: seq<Item>) {
    && (forall i :: 0 <= i < |items| ==> items[i].key in params && params[items[i].key] == items[i].value)
    && (forall key :: key in params ==> exists i :: 0 <= i < |items| && items[i].key == key)
  }

  lemma {:induction false} AddAllIsExact(params: Params, items: seq<Item>)
    requires DistinctKeys(items)
    ensures forall i :: 0 <= i < |items| ==>
              items[i].key in AddAll(params, items) && AddAll(params, items)[items[i].key] == items[i].value
    ensures forall key :: key in AddAll(params, items) ==>
              key in params || exists i :: 0 <= i < |items| && items[i].key == key
    decreases |items|
  {
    if items != [] {
      var params' := params[items[0].key := items[0].value];
      AddAllIsExact(params', items[1..]);
      AddAllKeepsOthers(params', items[1..], items[0].key);
      forall key | key in AddAll(params, items) && key !in params
        ensures exists i :: 0 <= i < |items| && items[i].key == key
      {
        if i :| 0 <= i < |items[1..]| && items[1..][i].key == key {
          assert items[i + 1].key == key;
        } else {
          assert items[0].key == key;
        }
      }
    }
  }

  lemma SchemeCut(text: string)
    ensures var h := "Bearer " + text; IndexOf(h, ' ') == 6 && h[..6] == "Bearer" && h[7..] == text
  {
    IndexIsFirst("Bearer", ' ', text);
    assert "Bearer " + text == "Bearer" + [' '] + text;
  }

  lemma SchemeParses(lower: string -> string, text: string)
    requires text != "" && Trimmed(text)
    ensures Parsed(lower, "Bearer " + text) == ParamsOf(lower, text, map[])
  {
    SchemeCut(text);
    assert Trim("Bearer " + text) == "Bearer " + text;
    assert Trim(text) == text;
    assert IsBearer("Bearer");
  }

  /** Parsing a printed challenge returns exactly the parameters printed, commas and equals signs
      inside quoted values included, and accepts it when it names a realm. */
  lemma RoundTrip(lower: string -> string, items: seq<Item>)
    requires AllPrintable(lower, items) && DistinctKeys(items) && items != []
    ensures Parsed(lower, Print(items)).Some? && Exactly(Parsed(lower, Print(items)).value, items)
    ensures (exists i :: 0 <= i < |items| && items[i].key == "realm" && items[i].value != "")
            <==> var params := Parsed(lower, Print(items)).value; "realm" in params && params["realm"] != ""
  {
    TextTrimmed(lower, items);
    SchemeParses(lower, Text(items));
    ItemsParse(lower, items, map[]);
    AddAllIsExact(map[], items);
  }
}
