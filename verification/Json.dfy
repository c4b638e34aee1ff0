/**
 JSON values, their UTF-8 text as `JSON.stringify` writes it, and the byte
 arithmetic that the projector carries along instead of the text.
 */
module Json {
  import opened JsText

  /** A finite JavaScript number: an integer, or any other number by its printed token. */
  datatype Number = Int(value: int) | Other(first: Byte, rest: Bytes)

  datatype Json =
    | JNull
    | JBool(b: bool)
    | JNumber(num: Number)
    | JString(s: Str)
    | JArray(items: seq<Json>)
    | JObject(props: seq<Member>)

  datatype Member = Member(key: Str, value: Json)

  function NumberText(num: Number): (text: Bytes)
    ensures |text| >= 1
  {
    match num
    case Int(value) => if value >= 0 then Decimal(value) else [0x2D] + Decimal(-value)
    case Other(first, rest) => [first] + rest
  }

  function Comma<T>(before: seq<T>): Bytes {
    if before == [] then [] else [0x2C]
  }

  function Render(j: Json): Bytes {
    match j
    case JNull => [0x6E, 0x75, 0x6C, 0x6C]
    case JBool(b) => if b then [0x74, 0x72, 0x75, 0x65] else [0x66, 0x61, 0x6C, 0x73, 0x65]
    case JNumber(num) => NumberText(num)
    case JString(s) => RenderString(s)
    case JArray(items) => [0x5B] + RenderItems(items) + [0x5D]
    case JObject(props) => [0x7B] + RenderProps(props) + [0x7D]
  }

  function RenderItems(items: seq<Json>): Bytes {
    if items == [] then []
    else
      var n := |items| - 1;
      RenderItems(items[..n]) + Comma(items[..n]) + Render(items[n])
  }

  function RenderProps(props: seq<Member>): Bytes {
    if props == [] then []
    else
      var n := |props| - 1;
      RenderProps(props[..n]) + Comma(props[..n]) + RenderString(props[n].key) + [0x3A] + Render(props[n].value)
  }

  // ----- sizes -----

  function CommaSize<T>(before: seq<T>): nat {
    if before == [] then 0 else 1
  }

  function Size(j: Json): (n: nat)
    ensures n >= 1
  {
    match j
    case JNull => 4
    case JBool(b) => if b then 4 else 5
    case JNumber(num) => |NumberText(num)|
    case JString(s) => StringSize(s)
    case JArray(items) => 2 + ItemsSize(items)
    case JObject(props) => 2 + PropsSize(props)
  }

  function ItemsSize(items: seq<Json>): nat {
    if items == [] then 0
    else
      var n := |items| - 1;
      ItemsSize(items[..n]) + CommaSize(items[..n]) + Size(items[n])
  }

  function PropsSize(props: seq<Member>): nat {
    if props == [] then 0
    else
      var n := |props| - 1;
      PropsSize(props[..n]) + CommaSize(props[..n]) + StringSize(props[n].key) + 1 + Size(props[n].value)
  }

  lemma {:induction false} SizeIsTextLength(j: Json)
    ensures Size(j) == |Render(j)|
    decreases j, 1
  {
    match j
    case JArray(items) => ItemsSizeIsTextLength(items);
    case JObject(props) => PropsSizeIsTextLength(props);
    case _ =>
  }

  lemma {:induction false} ItemsSizeIsTextLength(items: seq<Json>)
    ensures ItemsSize(items) == |RenderItems(items)|
    decreases items, 0
  {
    if items != [] {
      ItemsSizeIsTextLength(items[..|items| - 1]);
      SizeIsTextLength(items[|items| - 1]);
    }
  }

  lemma {:induction false} PropsSizeIsTextLength(props: seq<Member>)
    ensures PropsSize(props) == |RenderProps(props)|
    decreases props, 0
  {
    if props != [] {
      PropsSizeIsTextLength(props[..|props| - 1]);
      SizeIsTextLength(props[|props| - 1].value);
    }
  }

  lemma AppendItem(items: seq<Json>, j: Json)
    ensures ItemsSize(items + [j]) == ItemsSize(items) + CommaSize(items) + Size(j)
  {
    hide Size;
    assert (items + [j])[..|items|] == items;
  }

  lemma AppendProp(props: seq<Member>, key: Str, j: Json)
    ensures PropsSize(props + [Member(key, j)]) == PropsSize(props) + CommaSize(props) + StringSize(key) + 1 + Size(j)
  {
    assert (props + [Member(key, j)])[..|props|] == props;
  }

  // ----- the exact byte budget at which the projector keeps a value whole -----

  function Max(a: int, b: int): int {
    if a < b then b else a
  }

  /** Every property asks for a child budget of at least two bytes. */
  function Need(j: Json): nat {
    match j
    case JArray(items) => Max(2, NeedItems(items))
    case JObject(props) => Max(2, NeedProps(props))
    case _ => Size(j)
  }

  function NeedItems(items: seq<Json>): nat {
    if items == [] then 0
    else
      var n := |items| - 1;
      Max(NeedItems(items[..n]), 2 + ItemsSize(items[..n]) + CommaSize(items[..n]) + Need(items[n]))
  }

  function NeedProps(props: seq<Member>): nat {
    if props == [] then 0
    else
      var n := |props| - 1;
      Max(NeedProps(props[..n]),
          2 + PropsSize(props[..n]) + CommaSize(props[..n]) + 1 + StringSize(props[n].key)
              + Max(2, Need(props[n].value)))
  }

  /** The last leaf of the text is a one-byte value directly under a key. */
  predicate TightTail(j: Json) {
    match j
    case JArray(items) => items != [] && TightTail(items[|items| - 1])
    case JObject(props) =>
      props != [] && (Size(props[|props| - 1].value) == 1 || TightTail(props[|props| - 1].value))
    case _ => false
  }

  /** The budget needed is the size of the text, plus one byte exactly when the tail is tight. */
  lemma {:induction false} NeedExact(j: Json)
    ensures Need(j) == Size(j) + (if TightTail(j) then 1 else 0)
    decreases j, 2
  {
    match j
    case JArray(items) => NeedArrayExact(items);
    case JObject(props) => NeedObjectExact(props);
    case _ =>
  }

  lemma {:induction false} NeedArrayExact(items: seq<Json>)
    ensures Max(2, NeedItems(items)) == 2 + ItemsSize(items)
                                        + (if items != [] && TightTail(items[|items| - 1]) then 1 else 0)
    decreases items, 1
  {
    if items != [] {
      NeedItemsPrefix(items[..|items| - 1]);
      NeedExact(items[|items| - 1]);
    }
  }

  lemma {:induction false} NeedObjectExact(props: seq<Member>)
    ensures Max(2, NeedProps(props))
         == 2 + PropsSize(props) + (if TightTail(JObject(props)) then 1 else 0)
    decreases props, 1
  {
    if props != [] {
      NeedPropsPrefix(props[..|props| - 1]);
      NeedExact(props[|props| - 1].value);
    }
  }

  lemma {:induction false} NeedItemsPrefix(items: seq<Json>)
    ensures NeedItems(items) <= 3 + ItemsSize(items)
    decreases items, 0
  {
    if items != [] {
      NeedItemsPrefix(items[..|items| - 1]);
      NeedExact(items[|items| - 1]);
    }
  }

  lemma {:induction false} NeedPropsPrefix(props: seq<Member>)
    ensures NeedProps(props) <= 3 + PropsSize(props)
    decreases props, 0
  {
    if props != [] {
      NeedPropsPrefix(props[..|props| - 1]);
      NeedExact(props[|props| - 1].value);
    }
  }
}
