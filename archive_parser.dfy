/**
 * The archive normaliser `extractChatData` of src/lib/queries.ts, from the
 * point where the export file has been parsed: each exported conversation
 * tree becomes one `Conversation` whose messages are the tree nodes that carry
 * a message, in the order `Object.values` lists them.
 */
module ArchiveParser {
  import opened Types

  /** `message.author`; its `role` may be `null` or missing. */
  datatype RawAuthor = RawAuthor(role: Option<string>)

  /** One element of `content.parts`: `null` and `undefined` elements join as empty text. */
  datatype Part = Text(text: string) | Nullish

  /** `content.parts`: an array, or anything `Array.isArray` rejects (including a missing field). */
  datatype RawParts = PartsArray(items: seq<Part>) | NotArray

  datatype RawContent = RawContent(parts: RawParts)

  /** A node's `message` payload as exported. */
  datatype RawMessage = RawMessage(
    id: string,
    author: Option<RawAuthor>,
    content: Option<RawContent>,
    createTime: Option<real>,
    parent: Option<string>,
    children: Option<seq<string>>)

  /** One value of an export's `mapping` object. */
  datatype RawNode = RawNode(
    message: Option<RawMessage>,
    parent: Option<string>,
    children: Option<seq<string>>)

  /**
   * One exported conversation; `mapping` holds the values of the `mapping`
   * object in enumeration order, or `None` when the field is missing.
   */
  datatype RawConversation = RawConversation(
    title: string,
    createTime: real,
    updateTime: real,
    conversationId: string,
    mapping: Option<seq<RawNode>>)

  /** What `Object.values` throws on a missing `mapping`. */
  const MappingMissingMessage: string := "Cannot convert undefined or null to object"

  /** What reading `author.role` throws when a message has no author. */
  const AuthorMissingMessage: string := "Cannot read properties of undefined (reading 'role')"

  function PartText(p: Part): string {
    match p
    case Text(s) => s
    case Nullish => ""
  }

  /** `parts.join(' ')`: the first part's text, then a space before each further part. */
  function Join(parts: seq<Part>): (s: string)
    ensures |parts| == 0 ==> s == ""
    ensures |parts| > 0 ==> PartText(parts[0]) <= s
    ensures |parts| > 1 ==> |s| > |PartText(parts[0])| && s[|PartText(parts[0])|] == ' '
  {
    if |parts| == 0 then ""
    else if |parts| == 1 then PartText(parts[0])
    else PartText(parts[0]) + " " + Join(parts[1..])
  }

  /** The parts of `content.parts` when it is an array, otherwise none. */
  function PartsOf(content: Option<RawContent>): (parts: seq<Part>)
    ensures content.Some? && content.value.parts.PartsArray? ==> parts == content.value.parts.items
    ensures content.None? || content.value.parts.NotArray? ==> parts == []
  {
    match content
    case Some(RawContent(PartsArray(items))) => items
    case _ => []
  }

  /** JavaScript's `x || undefined` on an optional string: the empty string counts as missing. */
  function Truthy(s: Option<string>): (r: Option<string>)
    ensures r.Some? <==> s.Some? && s.value != ""
    ensures r.Some? ==> r == s
  {
    if s.Some? && s.value != "" then s else None
  }

  /** The message a node carrying a well-formed payload becomes. */
  function MessageOf(node: RawNode): (msg: Message)
    requires node.message.Some? && node.message.value.author.Some?
    ensures msg.id == node.message.value.id
    ensures var role := node.message.value.author.value.role;
      msg.authorRole == if role.Some? then role.value else "user"
    ensures msg.content == Join(PartsOf(node.message.value.content))
    ensures var t := node.message.value.createTime;
      msg.timestamp == if t.Some? then t.value else 0.0
    ensures msg.parentId == Truthy(node.parent)
    ensures node.children.Some? ==> msg.childrenIds == node.children.value
    ensures node.children.None? ==> msg.childrenIds == []
  {
    var m := node.message.value;
    Message(
      m.id,
      m.author.value.role.GetOr("user"),
      Join(PartsOf(m.content)),
      m.createTime.GetOr(0.0),
      Truthy(node.parent),
      node.children.GetOr([]))
  }

  /** The `.map` step: a node without a message maps to `null`; one without an author throws. */
  function ConvertNode(node: RawNode): (r: Attempt<Option<Message>>)
    ensures r.Raised? <==> node.message.Some? && node.message.value.author.None?
    ensures r.Raised? ==> r.error == Thrown(Some(AuthorMissingMessage))
    ensures r.Returned? ==> (r.value.Some? <==> node.message.Some?)
    ensures r.Returned? && r.value.Some? ==> r.value.value == MessageOf(node)
  {
    match node.message
    case None => Returned(None)
    case Some(m) =>
      if m.author.None? then Raised(Thrown(Some(AuthorMissingMessage)))
      else Returned(Some(MessageOf(node)))
  }

  /** `.map` over all nodes, stopping at the first node that throws. */
  function ConvertNodes(nodes: seq<RawNode>): (r: Attempt<seq<Option<Message>>>)
    ensures r.Returned? ==> |r.value| == |nodes|
    ensures r.Raised? ==> r.error == Thrown(Some(AuthorMissingMessage))
  {
    if nodes == [] then Returned([])
    else match ConvertNode(nodes[0])
      case Raised(e) => Raised(e)
      case Returned(x) =>
        match ConvertNodes(nodes[1..])
        case Raised(e) => Raised(e)
        case Returned(xs) => Returned([x] + xs)
  }

  /** `.filter(msg => msg !== null)`. */
  function DropNulls(xs: seq<Option<Message>>): (msgs: seq<Message>)
    ensures |msgs| <= |xs|
    ensures forall m :: m in msgs <==> Some(m) in xs
  {
    if xs == [] then []
    else if xs[0].None? then DropNulls(xs[1..])
    else [xs[0].value] + DropNulls(xs[1..])
  }

  /** The messages of one mapping: convert every node, then drop the nulls. */
  function ExtractMessages(nodes: seq<RawNode>): (r: Attempt<seq<Message>>)
    ensures r.Raised? ==> r.error == Thrown(Some(AuthorMissingMessage))
    ensures r.Returned? ==> |r.value| <= |nodes|
  {
    match ConvertNodes(nodes)
    case Raised(e) => Raised(e)
    case Returned(xs) => Returned(DropNulls(xs))
  }

  /** The conversation one export object becomes; `label` is not set here. */
  function ExtractConversation(rc: RawConversation): (r: Attempt<Conversation>)
    ensures rc.mapping.None? ==> r == Raised(Thrown(Some(MappingMissingMessage)))
    ensures r.Returned? ==>
      && rc.mapping.Some? && ExtractMessages(rc.mapping.value) == Returned(r.value.messages)
      && r.value.title == rc.title && r.value.createTime == rc.createTime
      && r.value.updateTime == rc.updateTime && r.value.conversationId == rc.conversationId
      && r.value.category.None?
  {
    match rc.mapping
    case None => Raised(Thrown(Some(MappingMissingMessage)))
    case Some(nodes) =>
      match ExtractMessages(nodes)
      case Raised(e) => Raised(e)
      case Returned(msgs) =>
        Returned(Conversation(rc.title, None, rc.createTime, rc.updateTime, rc.conversationId, msgs))
  }

  /** An export whose normalisation succeeds yields a conversation with its four header fields and no label. */
  predicate Normalises(rc: RawConversation, c: Conversation)
  {
    && ExtractConversation(rc) == Returned(c)
    && c.title == rc.title && c.createTime == rc.createTime && c.updateTime == rc.updateTime
    && c.conversationId == rc.conversationId && c.category.None?
  }

  /** `jsonData.map(...)` over the parsed export array: one conversation per element, in order. */
  function ExtractChatData(exports: seq<RawConversation>): (r: Attempt<seq<Conversation>>)
    ensures r.Returned? ==> |r.value| == |exports|
    ensures r.Returned? ==> forall i | 0 <= i < |exports| :: Normalises(exports[i], r.value[i])
  {
    if exports == [] then Returned([])
    else match ExtractConversation(exports[0])
      case Raised(e) => Raised(e)
      case Returned(c) =>
        match ExtractChatData(exports[1..])
        case Raised(e) => Raised(e)
        case Returned(cs) => Returned([c] + cs)
  }

  // ---------------------------------------------------------------------------
  // A reference definition: first keep the nodes that carry a message, then
  // convert each. The source does it the other way round (map to null, filter).

  /** The nodes with a truthy `message`, in order. */
  function WithMessage(nodes: seq<RawNode>): (r: seq<RawNode>)
    ensures |r| <= |nodes|
    ensures forall n | n in r :: n in nodes && n.message.Some?
  {
    if nodes == [] then []
    else if nodes[0].message.None? then WithMessage(nodes[1..])
    else [nodes[0]] + WithMessage(nodes[1..])
  }

  /** A node whose payload would throw when converted. */
  predicate Malformed(node: RawNode) {
    node.message.Some? && node.message.value.author.None?
  }

  /**
   * The messages of a mapping are exactly its message-carrying nodes, converted,
   * in the same order; nodes without a message are dropped and never fail.
   * Conversion fails exactly when some message has no author.
   */
  lemma {:induction false} ExtractMessagesSpec(nodes: seq<RawNode>)
    ensures ExtractMessages(nodes).Raised? <==> exists n | n in nodes :: Malformed(n)
    ensures ExtractMessages(nodes).Returned? ==>
      var msgs, kept := ExtractMessages(nodes).value, WithMessage(nodes);
      && |msgs| == |kept|
      && forall k | 0 <= k < |kept| :: kept[k].message.value.author.Some? && msgs[k] == MessageOf(kept[k])
  {
    if nodes != [] {
      var rest := nodes[1..];
      ExtractMessagesSpec(rest);
      assert forall n | n in nodes :: n == nodes[0] || n in rest;
      assert forall n | n in rest :: n in nodes;
      match ConvertNodes(rest)
      case Raised(_) =>
      case Returned(xs) =>
        if nodes[0].message.Some? && !Malformed(nodes[0]) {
          var kept := WithMessage(nodes);
          assert kept == [nodes[0]] + WithMessage(rest);
          assert ConvertNodes(nodes) == Returned([Some(MessageOf(nodes[0]))] + xs);
          assert DropNulls([Some(MessageOf(nodes[0]))] + xs) == [MessageOf(nodes[0])] + DropNulls(xs);
        } else if nodes[0].message.None? {
          assert ConvertNodes(nodes) == Returned([None] + xs);
          assert DropNulls([None] + xs) == DropNulls(xs);
        }
    }
  }

  /** Normalisation of the whole archive fails exactly when some export lacks a mapping or holds an authorless message. */
  lemma {:induction false} ExtractChatDataFails(exports: seq<RawConversation>)
    ensures ExtractChatData(exports).Raised? <==>
      exists i | 0 <= i < |exports| ::
        exports[i].mapping.None? || exists n | n in exports[i].mapping.value :: Malformed(n)
  {
    if exports != [] {
      ExtractChatDataFails(exports[1..]);
      match exports[0].mapping
      case None =>
      case Some(nodes) => ExtractMessagesSpec(nodes);
      forall i | 1 <= i < |exports| ensures exports[i] == exports[1..][i - 1] { }
      forall i | 0 <= i < |exports| - 1 ensures exports[1..][i] == exports[i + 1] { }
    }
  }

  /** The message links come from the node, never from its payload; an empty parent id reads as missing. */
  lemma LinksComeFromNode(node: RawNode, parent: Option<string>, children: Option<seq<string>>)
    requires node.message.Some? && node.message.value.author.Some?
    ensures var other := node.(message := Some(node.message.value.(parent := parent, children := children)));
      MessageOf(other) == MessageOf(node)
    ensures MessageOf(node).parentId.Some? <==> node.parent.Some? && node.parent.value != ""
    ensures node.children.None? ==> MessageOf(node).childrenIds == []
  {
  }

  /** `content` is empty unless `content.parts` is an array; a missing role reads as "user". */
  lemma MessageDefaults(node: RawNode)
    requires node.message.Some? && node.message.value.author.Some?
    ensures PartsOf(node.message.value.content) == [] ==> MessageOf(node).content == ""
    ensures node.message.value.author.value.role.None? ==> MessageOf(node).authorRole == "user"
    ensures node.message.value.createTime.None? ==> MessageOf(node).timestamp == 0.0
  {
  }

  // ---------------------------------------------------------------------------
  // `join(' ')` and its inverse on parts that hold no space.

  /** `s.split(' ')`. */
  function Split(s: string): (r: seq<string>)
    ensures |r| > 0
    decreases |s|
  {
    if ' ' in s then
      var i := FirstSpace(s);
      [s[..i]] + Split(s[i + 1..])
    else [s]
  }

  function FirstSpace(s: string): (i: nat)
    requires ' ' in s
    ensures i < |s| && s[i] == ' ' && ' ' !in s[..i]
  {
    if s[0] == ' ' then 0
    else
      assert ' ' in s[1..] by { assert s == [s[0]] + s[1..]; }
      var j := FirstSpace(s[1..]);
      assert s[..j + 1] == [s[0]] + s[1..][..j];
      j + 1
  }

  /** Splitting a space-free head joined to the rest by a space yields the head first. */
  lemma SplitAfterHead(t: string, rest: string)
    requires ' ' !in t
    ensures Split(t + " " + rest) == [t] + Split(rest)
  {
    var s := t + " " + rest;
    assert s[|t|] == ' ';
    var i := FirstSpace(s);
    assert s[..i] == t[..i];
    assert i == |t|;
    assert s[..i] == t && s[i + 1..] == rest;
  }

  /** Parts that are non-null texts without spaces come back out of their join by splitting on spaces. */
  lemma {:induction false} SplitJoin(parts: seq<Part>)
    requires |parts| > 0
    requires forall p | p in parts :: p.Text? && ' ' !in p.text
    ensures Split(Join(parts)) == seq(|parts|, k requires 0 <= k < |parts| => parts[k].text)
  {
    if |parts| == 1 {
      assert Join(parts) == parts[0].text;
    } else {
      assert parts[0] in parts;
      assert Join(parts) == parts[0].text + " " + Join(parts[1..]);
      SplitAfterHead(parts[0].text, Join(parts[1..]));
      forall p | p in parts[1..] ensures p.Text? && ' ' !in p.text {
        assert p in parts;
      }
      SplitJoin(parts[1..]);
    }
  }
}
