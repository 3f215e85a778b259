/** The plain-text body of a mail message: an explicit-stack walk over the MIME tree, and the
    recursive preorder it stands for. Case folding, base64url (RFC 4648, section 5) and UTF-8
    decoding are left to the platform. */
module MimeWalk {
  import opened CanonicalJson
  import opened Results
  import opened Sequences

  const MAX_DEPTH: nat := 16
  const MAX_PARTS: nat := 128
  const INVALID := "gmail_response_invalid"

  /** `str.casefold`, and base64 decoding of padded text to characters. */
  datatype Codec = Codec(casefold: string -> string, base64: string -> Option<string>)

  /** `key in value` and `value[key]` */
  function Lookup(fields: seq<Field>, key: string): Option<Json> {
    if fields == [] then None
    else if fields[0].key == key then Some(fields[0].value)
    else Lookup(fields[1..], key)
  }

  // ---------------------------------------------------------------- the tree

  function Size(v: Json): nat
    decreases v, 0
  {
    match v
    case JArr(items) => 1 + ItemsSize(items)
    case JObj(fields) => 1 + FieldsSize(fields)
    case _ => 1
  }

  function ItemsSize(items: seq<Json>): nat
    decreases items, 1
  {
    if items == [] then 0 else Size(items[0]) + ItemsSize(items[1..])
  }

  function FieldsSize(fields: seq<Field>): nat
    decreases fields, 1
  {
    if fields == [] then 0 else Size(fields[0].value) + FieldsSize(fields[1..])
  }

  /** The children of a part; none when the list is missing or not a list. */
  function ChildrenOf(part: seq<Field>): (r: seq<Json>)
    ensures ItemsSize(r) <= FieldsSize(part)
  {
    if part == [] then []
    else if part[0].key == "parts" then (if part[0].value.JArr? then part[0].value.items else [])
    else ChildrenOf(part[1..])
  }

  lemma {:induction false} ChildrenAreLookup(part: seq<Field>)
    ensures ChildrenOf(part) == match Lookup(part, "parts")
                                case Some(JArr(items)) => items
                                case _ => []
  {
    if part != [] { ChildrenAreLookup(part[1..]); }
  }

  datatype Node = Node(part: seq<Field>, depth: nat)

  /** The parts in preorder with their depths. */
  function Preorder(v: Json, depth: nat): seq<Node>
    decreases Size(v), 0
  {
    if !v.JObj? then [] else [Node(v.fields, depth)] + PreorderAll(ChildrenOf(v.fields), depth + 1)
  }

  function PreorderAll(parts: seq<Json>, depth: nat): seq<Node>
    decreases ItemsSize(parts), |parts| + 1
  {
    if parts == [] then [] else Preorder(parts[0], depth) + PreorderAll(parts[1..], depth)
  }

  // ---------------------------------------------------------------- one part

  function TextAt(part: seq<Field>, key: string): Json { Lookup(part, key).GetOr(JStr("")) }

  function BodyOf(part: seq<Field>): Json { Lookup(part, "body").GetOr(JObj([])) }

  /** The type checks on one part. */
  predicate WellTyped(part: seq<Field>) {
    && TextAt(part, "mimeType").JStr? && TextAt(part, "filename").JStr?
    && BodyOf(part).JObj?
    && (Lookup(BodyOf(part).fields, "data").Some? ==> Lookup(BodyOf(part).fields, "data").value.JStr?)
    && PartsWellTyped(part)
  }

  predicate PartsWellTyped(part: seq<Field>) {
    var parts := Lookup(part, "parts").GetOr(JArr([]));
    parts.JArr? && forall child | child in parts.items :: child.JObj?
  }

  /** An inline text/plain part that is not an attachment. */
  predicate Qualifies(codec: Codec, part: seq<Field>) {
    && TextAt(part, "mimeType").JStr? && codec.casefold(TextAt(part, "mimeType").s) == "text/plain"
    && TextAt(part, "filename") == JStr("")
    && BodyOf(part).JObj?
    && Lookup(BodyOf(part).fields, "attachmentId").None?
    && Lookup(BodyOf(part).fields, "data").Some? && Lookup(BodyOf(part).fields, "data").value.JStr?
  }

  function DataOf(part: seq<Field>): string {
    match BodyOf(part)
    case JObj(fields) => (match Lookup(fields, "data") case Some(JStr(s)) => s case _ => "")
    case _ => ""
  }

  predicate IsAscii(s: string) { forall i | 0 <= i < |s| :: s[i] < 128 as char }

  /** `-len(encoded) % 4` equals signs complete the last group of four. */
  function Padded(s: string): (r: string)
    ensures s <= r && |r| % 4 == 0 && |r| < |s| + 4
    ensures forall i | |s| <= i < |r| :: r[i] == '='
  {
    s + seq((4 - |s| % 4) % 4, i => '=')
  }

  /** `_decode_body` */
  function DecodeBody(codec: Codec, s: string): Option<string> {
    if !IsAscii(s) then None else codec.base64(Padded(s))
  }

  // ---------------------------------------------------------------- the reference walk

  /** Visiting the parts of a list in order, with `visited` of them already seen. */
  function Visit(codec: Codec, nodes: seq<Node>, visited: nat, body: Option<string>): Result<string>
    decreases |nodes|
  {
    if nodes == [] then Ok(body.GetOr(""))
    else
      var n := nodes[0];
      if n.depth > MAX_DEPTH || visited + 1 > MAX_PARTS || !WellTyped(n.part) then Raise(INVALID)
      else if body.None? && Qualifies(codec, n.part) then
        match DecodeBody(codec, DataOf(n.part))
        case None => Raise(INVALID)
        case Some(text) => Visit(codec, nodes[1..], visited + 1, Some(text))
      else Visit(codec, nodes[1..], visited + 1, body)
  }

  function PlainText(codec: Codec, root: seq<Field>): Result<string> {
    Visit(codec, Preorder(JObj(root), 0), 0, None)
  }

  // ---------------------------------------------------------------- the stack walk

  /** What is left on the stack, its top first. */
  function Pending(stack: seq<Node>): seq<Node>
    decreases |stack|
  {
    if stack == [] then []
    else
      var top := stack[|stack| - 1];
      Preorder(JObj(top.part), top.depth) + Pending(stack[..|stack| - 1])
  }

  /** `_extract_plain_text` */
  method ExtractPlainText(codec: Codec, root: seq<Field>) returns (r: Result<string>)
    ensures r == PlainText(codec, root)
  {
    hide WellTyped, Qualifies, Preorder, PreorderAll, DecodeBody, DataOf, Pending, ChildrenOf;
    var stack := [Node(root, 0)];
    var visited := 0;
    var body: Option<string> := None;
    RootPending(root);
    while stack != []
      invariant PlainText(codec, root) == Visit(codec, Pending(stack), visited, body)
      decreases |Pending(stack)|
    {
      var top := stack[|stack| - 1];
      ghost var before := Pending(stack);
      assert stack == stack[..|stack| - 1] + [top];
      stack := stack[..|stack| - 1];
      Popped(top, stack);
      ghost var after := PreorderAll(ChildrenOf(top.part), top.depth + 1) + Pending(stack);
      assert before[1..] == after;
      visited := visited + 1;
      if top.depth > MAX_DEPTH || visited > MAX_PARTS { return Raise(INVALID); }
      if !WellTyped(top.part) { return Raise(INVALID); }
      if body.None? && Qualifies(codec, top.part) {
        body := DecodeBody(codec, DataOf(top.part));
        if body.None? { return Raise(INVALID); }
      }
      TypedChildren(top.part);
      stack := PushReversed(stack, ChildrenOf(top.part), top.depth + 1);
    }
    NonePending();
    r := Ok(body.GetOr(""));
  }

  lemma {:induction false} RootPending(root: seq<Field>)
    ensures Pending([Node(root, 0)]) == Preorder(JObj(root), 0)
  {
    PushOne([], Node(root, 0));
    assert [] + [Node(root, 0)] == [Node(root, 0)];
    assert Preorder(JObj(root), 0) + [] == Preorder(JObj(root), 0);
  }

  lemma {:induction false} NonePending()
    ensures Pending([]) == []
  {}

  lemma {:induction false} TypedChildren(part: seq<Field>)
    requires WellTyped(part)
    ensures forall child | child in ChildrenOf(part) :: child.JObj?
  {
    ChildrenAreLookup(part);
  }

  lemma {:induction false} Popped(top: Node, rest: seq<Node>)
    ensures Pending(rest + [top]) == [top] + (PreorderAll(ChildrenOf(top.part), top.depth + 1) + Pending(rest))
  {
    assert (rest + [top])[..|rest|] == rest;
  }

  /** `for child in reversed(parts): stack.append((child, depth))` */
  method PushReversed(stack: seq<Node>, parts: seq<Json>, depth: nat) returns (stack': seq<Node>)
    requires forall child | child in parts :: child.JObj?
    ensures Pending(stack') == PreorderAll(parts, depth) + Pending(stack)
  {
    stack' := stack;
    assert parts[|parts|..] == [];
    for i := |parts| downto 0
      invariant Pending(stack') == PreorderAll(parts[i..], depth) + Pending(stack)
    {
      assert parts[i] in parts;
      var child := Node(parts[i].fields, depth);
      assert parts[i..][0] == parts[i] && parts[i..][1..] == parts[i + 1..];
      PushOne(stack', child);
      stack' := stack' + [child];
    }
    assert parts[0..] == parts;
  }

  lemma {:induction false} PushOne(stack: seq<Node>, child: Node)
    ensures Pending(stack + [child]) == Preorder(JObj(child.part), child.depth) + Pending(stack)
  {
    assert (stack + [child])[..|stack|] == stack;
  }

  // ---------------------------------------------------------------- what the walk decides

  function IsQualifying(codec: Codec): Node -> bool { (n: Node) => Qualifies(codec, n.part) }

  /** The body of the first qualifying part: empty without one, None when it does not decode. */
  function FirstBody(codec: Codec, nodes: seq<Node>): Option<string> {
    var qualifying := Filter(IsQualifying(codec), nodes);
    if qualifying == [] then Some("") else DecodeBody(codec, DataOf(qualifying[0].part))
  }

  /** What a walk over `nodes` accepts, when `visited` parts were seen before and `body` was found
      among them. */
  ghost predicate Acceptable(codec: Codec, nodes: seq<Node>, visited: nat, body: Option<string>) {
    && (forall i | 0 <= i < |nodes| :: nodes[i].depth <= MAX_DEPTH && WellTyped(nodes[i].part))
    && (nodes != [] ==> visited + |nodes| <= MAX_PARTS)
    && (body.None? ==> FirstBody(codec, nodes).Some?)
  }

  lemma {:induction false} VisitExact(codec: Codec, nodes: seq<Node>, visited: nat, body: Option<string>)
    ensures Visit(codec, nodes, visited, body).Ok? <==> Acceptable(codec, nodes, visited, body)
    ensures Visit(codec, nodes, visited, body).Ok? ==>
      Visit(codec, nodes, visited, body).value == if body.Some? then body.value else FirstBody(codec, nodes).value
    decreases |nodes|
  {
    hide WellTyped, Qualifies, DecodeBody, DataOf;
    if nodes != [] {
      var n, rest := nodes[0], nodes[1..];
      var p := IsQualifying(codec);
      assert Filter(p, nodes) == (if p(n) then [n] else []) + Filter(p, rest);
      var found := body.None? && Qualifies(codec, n.part);
      var body' := if found then DecodeBody(codec, DataOf(n.part)) else body;
      FirstBodyStep(codec, nodes);
      AcceptStep(codec, nodes, visited, body);
      VisitExact(codec, rest, visited + 1, body');
    }
  }

  lemma {:induction false} FirstBodyStep(codec: Codec, nodes: seq<Node>)
    requires nodes != []
    ensures FirstBody(codec, nodes) == if Qualifies(codec, nodes[0].part) then DecodeBody(codec, DataOf(nodes[0].part))
                                       else FirstBody(codec, nodes[1..])
  {
    hide Qualifies, DecodeBody, DataOf;
    var p := IsQualifying(codec);
    assert Filter(p, nodes) == (if p(nodes[0]) then [nodes[0]] else []) + Filter(p, nodes[1..]);
  }

  /** The conditions on the first part and on the rest. */
  lemma {:induction false} AcceptStep(codec: Codec, nodes: seq<Node>, visited: nat, body: Option<string>)
    requires nodes != []
    ensures var n := nodes[0];
      var body' := if body.None? && Qualifies(codec, n.part) then DecodeBody(codec, DataOf(n.part)) else body;
      Acceptable(codec, nodes, visited, body) <==>
        && n.depth <= MAX_DEPTH && WellTyped(n.part) && visited + 1 <= MAX_PARTS
        && (body.None? && Qualifies(codec, n.part) ==> body'.Some?)
        && Acceptable(codec, nodes[1..], visited + 1, body')
  {
    hide WellTyped, Qualifies, DecodeBody, DataOf, FirstBody;
    FirstBodyStep(codec, nodes);
    assert nodes == [nodes[0]] + nodes[1..];
  }

  /** The walk succeeds exactly when every part is well typed, none lies deeper than 16, there are
      at most 128, and the first qualifying body decodes; it returns that body, or the empty text
      when no part qualifies. */
  lemma {:induction false} WalkExact(codec: Codec, root: seq<Field>)
    ensures var nodes := Preorder(JObj(root), 0);
      && (PlainText(codec, root).Ok? <==>
            && (forall i | 0 <= i < |nodes| :: nodes[i].depth <= MAX_DEPTH && WellTyped(nodes[i].part))
            && |nodes| <= MAX_PARTS
            && FirstBody(codec, nodes).Some?)
      && (PlainText(codec, root).Ok? ==> PlainText(codec, root) == Ok(FirstBody(codec, nodes).value))
      && (PlainText(codec, root).Raise? ==> PlainText(codec, root) == Raise(INVALID))
  {
    hide WellTyped, FirstBody;
    var nodes := Preorder(JObj(root), 0);
    VisitExact(codec, nodes, 0, None);
    VisitRaises(codec, nodes, 0, None);
  }

  lemma {:induction false} VisitRaises(codec: Codec, nodes: seq<Node>, visited: nat, body: Option<string>)
    ensures Visit(codec, nodes, visited, body).Raise? ==> Visit(codec, nodes, visited, body) == Raise(INVALID)
    decreases |nodes|
  {
    hide WellTyped, Qualifies, DecodeBody, DataOf;
    if nodes != [] {
      var n := nodes[0];
      VisitRaises(codec, nodes[1..], visited + 1, body);
      VisitRaises(codec, nodes[1..], visited + 1, DecodeBody(codec, DataOf(n.part)));
    }
  }

  // ---------------------------------------------------------------- the walk by what parts hold

  /** Where a key is present its value has the right kind; the children are dictionaries. */
  ghost predicate TypedPart(part: seq<Field>) {
    && (Lookup(part, "mimeType").Some? ==> Lookup(part, "mimeType").value.JStr?)
    && (Lookup(part, "filename").Some? ==> Lookup(part, "filename").value.JStr?)
    && (Lookup(part, "body").Some? ==>
          && Lookup(part, "body").value.JObj?
          && var body := Lookup(part, "body").value.fields;
             Lookup(body, "data").Some? ==> Lookup(body, "data").value.JStr?)
    && (Lookup(part, "parts").Some? ==>
          && Lookup(part, "parts").value.JArr?
          && forall child | child in Lookup(part, "parts").value.items :: child.JObj?)
  }

  ghost function StringAt(part: seq<Field>, key: string): string {
    if Lookup(part, key).Some? && Lookup(part, key).value.JStr? then Lookup(part, key).value.s else ""
  }

  /** The part is plain text without a file name, and its body holds `data` and no attachment. */
  ghost predicate PlainPart(codec: Codec, part: seq<Field>, data: string) {
    && codec.casefold(StringAt(part, "mimeType")) == "text/plain" && StringAt(part, "filename") == ""
    && exists body :: Lookup(part, "body") == Some(JObj(body))
         && Lookup(body, "data") == Some(JStr(data)) && Lookup(body, "attachmentId").None?
  }

  /** Base64 of ASCII data, completed with equals signs to groups of four. */
  ghost function Decoded(codec: Codec, data: string): Option<string> {
    if exists i | 0 <= i < |data| :: data[i] >= 128 as char then None else codec.base64(Padded(data))
  }

  lemma {:induction false} TypedExactly(part: seq<Field>)
    ensures WellTyped(part) <==> TypedPart(part)
  {}

  lemma {:induction false} QualifiesExactly(codec: Codec, part: seq<Field>, data: string)
    requires WellTyped(part)
    ensures PlainPart(codec, part, data) <==> Qualifies(codec, part) && DataOf(part) == data
  {}

  lemma {:induction false} DecodedExactly(codec: Codec, data: string)
    ensures DecodeBody(codec, data) == Decoded(codec, data)
  {}

  /** No part among the first `k` is plain. */
  ghost predicate NonePlain(codec: Codec, nodes: seq<Node>, k: int) {
    forall i, data | 0 <= i < k && i < |nodes| :: !PlainPart(codec, nodes[i].part, data)
  }

  /** The first qualifying node of a list. */
  lemma {:induction false} FirstPlain(codec: Codec, nodes: seq<Node>) returns (k: nat)
    requires forall i | 0 <= i < |nodes| :: WellTyped(nodes[i].part)
    ensures k <= |nodes| && NonePlain(codec, nodes, k)
    ensures k < |nodes| ==> Qualifies(codec, nodes[k].part)
    ensures FirstBody(codec, nodes) == if k == |nodes| then Some("") else DecodeBody(codec, DataOf(nodes[k].part))
  {
    hide WellTyped, Qualifies, DecodeBody, DataOf, FirstBody, PlainPart;
    if nodes == [] {
      k := 0;
      EmptyBody(codec);
    } else {
      FirstBodyStep(codec, nodes);
      if Qualifies(codec, nodes[0].part) {
        k := 0;
      } else {
        k := FirstPlain(codec, nodes[1..]);
        k := k + 1;
        forall i, data | 0 <= i < k && i < |nodes| ensures !PlainPart(codec, nodes[i].part, data) {
          if i == 0 { QualifiesExactly(codec, nodes[0].part, data); } else { assert nodes[i] == nodes[1..][i - 1]; }
        }
      }
    }
  }

  lemma {:induction false} EmptyBody(codec: Codec)
    ensures FirstBody(codec, []) == Some("")
  {}

  /** What the walk returns: an error unless all parts are typed, lie at most 16 deep and are at most
      128; then the decoded data of the first plain part in preorder, an error if it does not decode,
      and the empty text if no part is plain. */
  lemma {:induction false} WalkByParts(codec: Codec, root: seq<Field>, k: nat, data: string)
    requires var nodes := Preorder(JObj(root), 0);
      && NonePlain(codec, nodes, k) && k <= |nodes| && (k < |nodes| ==> PlainPart(codec, nodes[k].part, data))
    ensures var nodes := Preorder(JObj(root), 0);
      var sound := |nodes| <= 128 && forall i | 0 <= i < |nodes| :: nodes[i].depth <= 16 && TypedPart(nodes[i].part);
      PlainText(codec, root) ==
        if !sound then Raise("gmail_response_invalid")
        else if k == |nodes| then Ok("")
        else if Decoded(codec, data).None? then Raise("gmail_response_invalid")
        else Ok(Decoded(codec, data).value)
  {
    hide WellTyped, TypedPart, Qualifies, PlainPart, DecodeBody, Decoded, DataOf, FirstBody, Preorder, PlainText;
    var nodes := Preorder(JObj(root), 0);
    WalkExact(codec, root);
    forall i | 0 <= i < |nodes| ensures WellTyped(nodes[i].part) <==> TypedPart(nodes[i].part) {
      TypedExactly(nodes[i].part);
    }
    if forall i | 0 <= i < |nodes| :: WellTyped(nodes[i].part) {
      var first := FirstPlain(codec, nodes);
      if first < |nodes| {
        QualifiesExactly(codec, nodes[first].part, DataOf(nodes[first].part));
        DecodedExactly(codec, DataOf(nodes[first].part));
      }
      if k < |nodes| { QualifiesExactly(codec, nodes[k].part, data); }
      assert first == k;
    }
  }

  /** Every tree has such a first part, or none. */
  lemma {:induction false} SomeFirst(codec: Codec, nodes: seq<Node>) returns (k: nat, data: string)
    ensures NonePlain(codec, nodes, k) && k <= |nodes| && (k < |nodes| ==> PlainPart(codec, nodes[k].part, data))
  {
    hide PlainPart;
    k, data := 0, "";
    while k < |nodes| && !exists d :: PlainPart(codec, nodes[k].part, d)
      invariant k <= |nodes| && NonePlain(codec, nodes, k)
    {
      k := k + 1;
    }
    if k < |nodes| { data :| PlainPart(codec, nodes[k].part, data); }
  }
}
