/**
  The immutable steering request (driver/steering.go): a deep copy of a prompt whose blocks live
  on the heap and may form any graph, shared or cyclic. What a prompt means is its unfolding, a
  tree of values; the copier is verified to succeed exactly on the prompts whose unfolding is
  finite and at most 64 deep, and to produce the same unfolding out of fresh memory.
 */
module SteerRequests {
  import opened Options

  /** maxSteerBlockDepth. */
  const MAX_DEPTH: nat := 64

  type Bytes = array?<bv8>

  /** One sealed block variant; `fields` are its plain values. */
  datatype Body =
    | Text(fields: string)
    | Refusal(fields: string)
    | Image(fields: string, data: Bytes)
    | Audio(fields: string, data: Bytes)
    | Document(fields: string, data: Bytes)
    | Thinking(fields: string, providerState: Bytes)
    | ToolUse(fields: string, input: Bytes, providerState: Bytes)
    | ToolResult(fields: string, content: array?<Block?>)
    | UnknownType

  class Block {
    var body: Body

    constructor (body: Body)
      ensures this.body == body
    {
      this.body := body;
    }
  }

  /** The heap a prompt lives in. */
  datatype Region = Region(blocks: set<Block>, bytes: set<array<bv8>>, lists: set<array<Block?>>)
  {
    ghost function Objects(): set<object> {
      blocks + bytes + lists
    }

    ghost function Plus(other: Region): Region {
      Region(blocks + other.blocks, bytes + other.bytes, lists + other.lists)
    }
  }

  const NOWHERE := Region({}, {}, {})

  predicate HasBytes(region: Region, b: Bytes) {
    b != null ==> b in region.bytes
  }

  predicate HasAll(region: Region, bs: seq<Block?>) {
    forall b :: b in bs && b != null ==> b in region.blocks
  }

  ghost predicate HasBody(region: Region, body: Body)
    reads region.lists
  {
    match body
    case Image(_, data) => HasBytes(region, data)
    case Audio(_, data) => HasBytes(region, data)
    case Document(_, data) => HasBytes(region, data)
    case Thinking(_, state) => HasBytes(region, state)
    case ToolUse(_, input, state) => HasBytes(region, input) && HasBytes(region, state)
    case ToolResult(_, content) => content != null ==> content in region.lists && HasAll(region, content[..])
    case _ => true
  }

  /** Nothing reachable from the region's blocks is outside it. */
  ghost predicate Closed(region: Region)
    reads region.blocks, region.lists
  {
    forall b :: b in region.blocks ==> HasBody(region, b.body)
  }

  /** The meaning of a block; a nil byte slice differs from an empty one, a nil content does not. */
  datatype Tree =
    | Leaf(kind: nat, fields: string, first: Option<seq<bv8>>, second: Option<seq<bv8>>)
    | Nested(fields: string, children: seq<Tree>)

  ghost function Value(b: Bytes): Option<seq<bv8>>
    reads if b != null then {b} else {}
  {
    if b == null then None else Some(b[..])
  }

  /** The unfolding of one block met at `depth`; none if something in it is nil, unknown or too deep. */
  ghost function TreeOf(b: Block?, depth: nat, region: Region): Option<Tree>
    requires Closed(region) && (b != null ==> b in region.blocks) && depth <= MAX_DEPTH
    reads region.blocks, region.bytes, region.lists
    decreases MAX_DEPTH - depth, 0
  {
    if b == null then None
    else
      assert HasBody(region, b.body);
      match b.body
      case Text(f) => Some(Leaf(0, f, None, None))
      case Refusal(f) => Some(Leaf(1, f, None, None))
      case Image(f, data) => Some(Leaf(2, f, Value(data), None))
      case Audio(f, data) => Some(Leaf(3, f, Value(data), None))
      case Document(f, data) => Some(Leaf(4, f, Value(data), None))
      case Thinking(f, state) => Some(Leaf(5, f, Value(state), None))
      case ToolUse(f, input, state) => Some(Leaf(6, f, Value(input), Value(state)))
      case ToolResult(f, content) =>
        if content == null || content.Length == 0 then Some(Nested(f, []))
        else if depth == MAX_DEPTH then None
        else
          var children := TreesOf(content[..], depth + 1, region);
          if children.None? then None else Some(Nested(f, children.value))
      case UnknownType => None
  }

  /** The unfoldings of a list of blocks, in order; none if one of them has none. */
  ghost function TreesOf(bs: seq<Block?>, depth: nat, region: Region): Option<seq<Tree>>
    requires Closed(region) && HasAll(region, bs) && depth <= MAX_DEPTH
    reads region.blocks, region.bytes, region.lists
    decreases MAX_DEPTH - depth, 1 + |bs|
  {
    if bs == [] then Some([])
    else
      var front, last := TreesOf(bs[..|bs| - 1], depth, region), TreeOf(bs[|bs| - 1], depth, region);
      if front.None? || last.None? then None else Some(front.value + [last.value])
  }

  /** What a prompt means: a required, well-formed list of blocks. */
  ghost function Meaning(prompt: array?<Block?>, region: Region): Option<seq<Tree>>
    requires Closed(region) && (prompt != null ==> prompt in region.lists && HasAll(region, prompt[..]))
    reads region.blocks, region.bytes, region.lists
  {
    if prompt == null || prompt.Length == 0 then None else TreesOf(prompt[..], 0, region)
  }

  // ---------------------------------------------------------------- the unfolding

  /** A block that unfolds at one depth unfolds to the same tree at every smaller one. */
  lemma {:induction false} UnfoldsHigher(b: Block?, depth: nat, less: nat, region: Region)
    requires Closed(region) && (b != null ==> b in region.blocks) && less <= depth <= MAX_DEPTH
    ensures TreeOf(b, depth, region).Some? ==> TreeOf(b, less, region) == TreeOf(b, depth, region)
    decreases MAX_DEPTH - depth, 0
  {
    if b != null && b.body.ToolResult? && depth < MAX_DEPTH {
      assert HasBody(region, b.body);
      if b.body.content != null {
        AllUnfoldHigher(b.body.content[..], depth + 1, less + 1, region);
      }
    }
  }

  lemma {:induction false} AllUnfoldHigher(bs: seq<Block?>, depth: nat, less: nat, region: Region)
    requires Closed(region) && HasAll(region, bs) && less <= depth <= MAX_DEPTH
    ensures TreesOf(bs, depth, region).Some? ==> TreesOf(bs, less, region) == TreesOf(bs, depth, region)
    decreases MAX_DEPTH - depth, 1 + |bs|
  {
    if bs != [] {
      AllUnfoldHigher(bs[..|bs| - 1], depth, less, region);
      UnfoldsHigher(bs[|bs| - 1], depth, less, region);
    }
  }

  /** The unfolding does not depend on what else is in the region. */
  lemma {:induction false} RegionExtends(b: Block?, depth: nat, region: Region, larger: Region)
    requires Closed(region) && Closed(larger) && (b != null ==> b in region.blocks) && depth <= MAX_DEPTH
    requires region.blocks <= larger.blocks
    ensures TreeOf(b, depth, larger) == TreeOf(b, depth, region)
    decreases MAX_DEPTH - depth, 0
  {
    if b != null && b.body.ToolResult? && depth < MAX_DEPTH {
      assert HasBody(region, b.body);
      if b.body.content != null {
        RegionExtendsAll(b.body.content[..], depth + 1, region, larger);
      }
    }
  }

  lemma {:induction false} RegionExtendsAll(bs: seq<Block?>, depth: nat, region: Region, larger: Region)
    requires Closed(region) && Closed(larger) && HasAll(region, bs) && HasAll(larger, bs) && depth <= MAX_DEPTH
    requires region.blocks <= larger.blocks
    ensures TreesOf(bs, depth, larger) == TreesOf(bs, depth, region)
    decreases MAX_DEPTH - depth, 1 + |bs|
  {
    if bs != [] {
      RegionExtendsAll(bs[..|bs| - 1], depth, region, larger);
      RegionExtends(bs[|bs| - 1], depth, region, larger);
    }
  }

  lemma ListUnfolds(bs: seq<Block?>, b: Block?, depth: nat, region: Region)
    requires Closed(region) && HasAll(region, bs + [b]) && HasAll(region, bs) && depth <= MAX_DEPTH
    requires b != null ==> b in region.blocks
    ensures
      var front, last := TreesOf(bs, depth, region), TreeOf(b, depth, region);
      TreesOf(bs + [b], depth, region) == if front.None? || last.None? then None else Some(front.value + [last.value])
  {
    assert (bs + [b])[..|bs|] == bs;
  }

  /** If a prefix does not unfold, the list does not. */
  lemma {:induction false} PrefixUnfolds(bs: seq<Block?>, n: nat, depth: nat, region: Region)
    requires Closed(region) && HasAll(region, bs) && n <= |bs| && depth <= MAX_DEPTH
    requires HasAll(region, bs[..n])
    ensures TreesOf(bs, depth, region).Some? ==> TreesOf(bs[..n], depth, region).Some?
    decreases |bs|
  {
    if n < |bs| {
      assert bs[..|bs| - 1][..n] == bs[..n];
      PrefixUnfolds(bs[..|bs| - 1], n, depth, region);
    } else {
      assert bs[..n] == bs;
    }
  }

  // ---------------------------------------------------------------- cycles

  function Size(t: Tree): nat {
    match t
    case Leaf(_, _, _, _) => 1
    case Nested(_, children) => 1 + SizeAll(children)
  }

  function SizeAll(ts: seq<Tree>): nat {
    if ts == [] then 0 else SizeAll(ts[..|ts| - 1]) + Size(ts[|ts| - 1])
  }

  lemma {:induction false} MemberUnfolds(bs: seq<Block?>, b: Block?, depth: nat, region: Region)
    requires Closed(region) && HasAll(region, bs) && b in bs && depth <= MAX_DEPTH
    requires TreesOf(bs, depth, region).Some?
    ensures b != null ==> b in region.blocks
    ensures TreeOf(b, depth, region).Some?
    ensures Size(TreeOf(b, depth, region).value) <= SizeAll(TreesOf(bs, depth, region).value)
    decreases |bs|
  {
    var front, last := bs[..|bs| - 1], bs[|bs| - 1];
    assert bs == front + [last];
    var ts := TreesOf(bs, depth, region).value;
    assert ts[..|ts| - 1] == TreesOf(front, depth, region).value;
    if b != last {
      MemberUnfolds(front, b, depth, region);
    }
  }

  /** `child` stands directly in the tool result `b`. */
  ghost predicate Holds(b: Block, child: Block?)
    reads b, if b.body.ToolResult? && b.body.content != null then {b.body.content} else {}
  {
    b.body.ToolResult? && b.body.content != null && child in b.body.content[..]
  }

  lemma ChildUnfolds(b: Block, child: Block?, depth: nat, region: Region)
    requires Closed(region) && b in region.blocks && depth < MAX_DEPTH && Holds(b, child)
    requires TreeOf(b, depth, region).Some?
    ensures child != null ==> child in region.blocks
    ensures TreeOf(child, depth + 1, region).Some?
    ensures Size(TreeOf(child, depth + 1, region).value) < Size(TreeOf(b, depth, region).value)
  {
    assert HasBody(region, b.body);
    MemberUnfolds(b.body.content[..], child, depth + 1, region);
  }

  /** The blocks being copied, from the prompt down to what holds `b`: `path[i]` is at depth i. */
  ghost predicate Leads(path: seq<Block>, b: Block?, region: Region)
    requires Closed(region)
    reads region.blocks, region.lists
  {
    && (forall i :: 0 <= i < |path| ==> path[i] in region.blocks)
    && (path != [] ==> b != null ==> b in region.blocks)
    && (forall i :: 0 <= i < |path| - 1 ==> InContent(path[i], path[i + 1], region))
    && (path != [] ==> InContent(path[|path| - 1], b, region))
  }

  ghost predicate InContent(b: Block, child: Block?, region: Region)
    requires Closed(region)
    reads region.blocks, region.lists
  {
    b in region.blocks && HasBody(region, b.body) && Holds(b, child)
  }

  lemma {:induction false} PathShrinks(path: seq<Block>, b: Block?, i: nat, region: Region)
    requires Closed(region) && Leads(path, b, region) && i < |path| <= MAX_DEPTH
    requires TreeOf(path[i], i, region).Some?
    ensures b != null ==> b in region.blocks
    ensures TreeOf(b, |path|, region).Some?
    ensures Size(TreeOf(b, |path|, region).value) < Size(TreeOf(path[i], i, region).value)
    decreases |path| - i
  {
    if i == |path| - 1 {
      ChildUnfolds(path[i], b, i, region);
    } else {
      assert InContent(path[i], path[i + 1], region);
      ChildUnfolds(path[i], path[i + 1], i, region);
      PathShrinks(path, b, i + 1, region);
    }
  }

  /** A block that is met again while it is being copied has no finite unfolding. */
  lemma CyclesDoNotUnfold(path: seq<Block>, b: Block, region: Region)
    requires Closed(region) && Leads(path, b, region) && |path| <= MAX_DEPTH && b in path
    ensures b in region.blocks && TreeOf(b, |path|, region).None?
  {
    var i :| 0 <= i < |path| && path[i] == b;
    UnfoldsHigher(b, |path|, i, region);
    if TreeOf(b, |path|, region).Some? {
      PathShrinks(path, b, i, region);
    }
  }

  // ---------------------------------------------------------------- the copier

  method CloneBytes(input: Bytes) returns (output: Bytes)
    ensures Value(output) == Value(input)
    ensures output != null ==> fresh(output)
  {
    if input == null {
      return null;
    }
    output := new bv8[input.Length];
    var i := 0;
    while i < input.Length
      invariant 0 <= i <= input.Length && output != null && fresh(output) && output.Length == input.Length
      invariant output[..i] == input[..i]
      modifies output
    {
      output[i] := input[i];
      i := i + 1;
    }
    assert output[..] == output[..i] == input[..];
  }

  function AsSet(b: Bytes): set<array<bv8>> {
    if b == null then {} else {b}
  }

  function BytesOf(body: Body): set<array<bv8>> {
    match body
    case Image(_, data) => AsSet(data)
    case Audio(_, data) => AsSet(data)
    case Document(_, data) => AsSet(data)
    case Thinking(_, state) => AsSet(state)
    case ToolUse(_, input, state) => AsSet(input) + AsSet(state)
    case _ => {}
  }

  /** The tree of a block that holds no other blocks. */
  ghost function LeafOf(b: Block): Tree
    requires !b.body.ToolResult? && !b.body.UnknownType?
    reads b, BytesOf(b.body)
  {
    match b.body
    case Text(f) => Leaf(0, f, None, None)
    case Refusal(f) => Leaf(1, f, None, None)
    case Image(f, data) => Leaf(2, f, Value(data), None)
    case Audio(f, data) => Leaf(3, f, Value(data), None)
    case Document(f, data) => Leaf(4, f, Value(data), None)
    case Thinking(f, state) => Leaf(5, f, Value(state), None)
    case ToolUse(f, input, state) => Leaf(6, f, Value(input), Value(state))
  }

  lemma LeafUnfolds(b: Block, depth: nat, region: Region)
    requires Closed(region) && b in region.blocks && depth <= MAX_DEPTH
    requires !b.body.ToolResult? && !b.body.UnknownType?
    ensures TreeOf(b, depth, region) == Some(LeafOf(b))
  {
  }

  /** A fresh copy of a block that holds no other blocks. */
  method CloneLeaf(b: Block) returns (copy: Block, ghost made: Region)
    requires !b.body.ToolResult? && !b.body.UnknownType?
    ensures fresh(copy) && fresh(made.Objects()) && Closed(made) && copy in made.blocks
    ensures !copy.body.ToolResult? && !copy.body.UnknownType? && LeafOf(copy) == LeafOf(b)
  {
    match b.body {
      case Text(f) =>
        copy := new Block(Text(f));
        made := Region({copy}, {}, {});
      case Refusal(f) =>
        copy := new Block(Refusal(f));
        made := Region({copy}, {}, {});
      case Image(f, data) =>
        var bytes := CloneBytes(data);
        copy := new Block(Image(f, bytes));
        made := Region({copy}, AsSet(bytes), {});
      case Audio(f, data) =>
        var bytes := CloneBytes(data);
        copy := new Block(Audio(f, bytes));
        made := Region({copy}, AsSet(bytes), {});
      case Document(f, data) =>
        var bytes := CloneBytes(data);
        copy := new Block(Document(f, bytes));
        made := Region({copy}, AsSet(bytes), {});
      case Thinking(f, state) =>
        var bytes := CloneBytes(state);
        copy := new Block(Thinking(f, bytes));
        made := Region({copy}, AsSet(bytes), {});
      case ToolUse(f, input, state) =>
        var bytes := CloneBytes(input);
        var kept := CloneBytes(state);
        copy := new Block(ToolUse(f, bytes, kept));
        made := Region({copy}, AsSet(bytes) + AsSet(kept), {});
    }
  }

  /**
    cloneSteerBlock. `active` holds the tool results being copied, which are the blocks of `path`;
    one of them met again is a cycle.
   */
  method CloneBlock(b: Block?, depth: nat, active: set<Block>, ghost path: seq<Block>, ghost region: Region)
    returns (copy: Block?, ok: bool, ghost made: Region)
    requires Closed(region) && (b != null ==> b in region.blocks) && depth <= MAX_DEPTH
    requires |path| == depth && Leads(path, b, region) && forall a :: a in active <==> a in path
    ensures fresh(made.Objects()) && Closed(made)
    ensures ok == TreeOf(b, depth, region).Some?
    ensures ok ==> copy in made.blocks && TreeOf(copy, depth, made) == TreeOf(b, depth, region)
    decreases MAX_DEPTH + 1 - depth, 1
  {
    made := NOWHERE;
    if b == null || b.body.UnknownType? {
      return null, false, made;
    }
    if !b.body.ToolResult? {
      copy, made := CloneLeaf(b);
      LeafUnfolds(b, depth, region);
      LeafUnfolds(copy, depth, made);
      return copy, true, made;
    }
    if b in active {
      CyclesDoNotUnfold(path, b, region);
      return null, false, made;
    }
    copy, ok, made := CloneToolResult(b, depth, active, path, region);
  }

  method CloneToolResult(b: Block, depth: nat, active: set<Block>, ghost path: seq<Block>, ghost region: Region)
    returns (copy: Block?, ok: bool, ghost made: Region)
    requires Closed(region) && b in region.blocks && depth <= MAX_DEPTH && b.body.ToolResult?
    requires |path| == depth && Leads(path, b, region) && forall a :: a in active <==> a in path
    ensures fresh(made.Objects()) && Closed(made)
    ensures ok == TreeOf(b, depth, region).Some?
    ensures ok ==> copy in made.blocks && TreeOf(copy, depth, made) == TreeOf(b, depth, region)
    decreases MAX_DEPTH + 1 - depth, 0
  {
    hide Leads, TreesOf, TreeOf, HasAll, Closed;
    made := NOWHERE;
    var content := b.body.content;
    ContentUnfolds(b, depth, region);
    if content == null || content.Length == 0 {
      copy := new Block(ToolResult(b.body.fields, null));
      made := Region({copy}, {}, {});
      EmptyResult(copy, depth, made);
      return copy, true, made;
    }
    LeadsInto(path, b, region);
    var cloned;
    ghost var parts;
    cloned, ok, parts := CloneBlocks(content, depth + 1, active + {b}, path + [b], region);
    if !ok {
      EmptyRegion();
      return null, false, made;
    }
    copy := new Block(ToolResult(b.body.fields, cloned));
    made := Region(parts.blocks + {copy}, parts.bytes, parts.lists);
    WrappedResult(copy, depth, parts);
  }

  /** A tool result unfolds exactly when its content, if it has any, unfolds one deeper. */
  lemma ContentUnfolds(b: Block, depth: nat, region: Region)
    requires Closed(region) && b in region.blocks && depth <= MAX_DEPTH && b.body.ToolResult?
    ensures
      var content := b.body.content;
      if content == null || content.Length == 0 then TreeOf(b, depth, region) == Some(Nested(b.body.fields, []))
      else
        && content in region.lists && HasAll(region, content[..])
        && (depth == MAX_DEPTH ==> TreeOf(b, depth, region).None?)
        && (depth < MAX_DEPTH ==>
              var children := TreesOf(content[..], depth + 1, region);
              TreeOf(b, depth, region) == if children.None? then None else Some(Nested(b.body.fields, children.value)))
  {
    assert HasBody(region, b.body);
  }

  lemma EmptyResult(copy: Block, depth: nat, made: Region)
    requires made == Region({copy}, {}, {}) && copy.body.ToolResult? && copy.body.content == null && depth <= MAX_DEPTH
    ensures Closed(made) && TreeOf(copy, depth, made) == Some(Nested(copy.body.fields, []))
  {
  }

  lemma WrappedResult(copy: Block, depth: nat, parts: Region)
    requires Closed(parts) && copy !in parts.blocks && copy.body.ToolResult? && depth < MAX_DEPTH
    requires copy.body.content != null && copy.body.content.Length > 0
    requires copy.body.content in parts.lists && HasAll(parts, copy.body.content[..])
    requires TreesOf(copy.body.content[..], depth + 1, parts).Some?
    ensures
      var made := Region(parts.blocks + {copy}, parts.bytes, parts.lists);
      && Closed(made)
      && TreeOf(copy, depth, made) ==
           Some(Nested(copy.body.fields, TreesOf(copy.body.content[..], depth + 1, parts).value))
  {
    var made := Region(parts.blocks + {copy}, parts.bytes, parts.lists);
    forall x | x in made.blocks ensures HasBody(made, x.body) {
      if x != copy {
        assert HasBody(parts, x.body);
      }
    }
    RegionExtendsAll(copy.body.content[..], depth + 1, parts, made);
  }

  lemma LeadsInto(path: seq<Block>, b: Block, region: Region)
    requires Closed(region) && Leads(path, b, region) && b in region.blocks && b.body.ToolResult?
    requires b.body.content != null
    ensures AllLead(path + [b], b.body.content[..], region)
  {
    forall c | c in b.body.content[..] ensures Leads(path + [b], c, region) {
      LeadsOn(path, b, c, region);
    }
  }

  /** Every block of the list stands at the end of the path. */
  ghost predicate AllLead(path: seq<Block>, bs: seq<Block?>, region: Region)
    requires Closed(region)
    reads region.blocks, region.lists
  {
    forall c :: c in bs ==> Leads(path, c, region)
  }

  lemma LeadsOn(path: seq<Block>, b: Block, child: Block?, region: Region)
    requires Closed(region) && Leads(path, b, region) && b in region.blocks && Holds(b, child)
    ensures Leads(path + [b], child, region)
  {
    var longer := path + [b];
    assert HasBody(region, b.body);
    forall i | 0 <= i < |longer| - 1 ensures InContent(longer[i], longer[i + 1], region) {
      if i < |path| - 1 {
        assert InContent(path[i], path[i + 1], region);
      }
    }
  }

  /** cloneSteerBlocks: refused too deep and refused empty. */
  method CloneBlocks(
    blocks: array?<Block?>, depth: nat, active: set<Block>, ghost path: seq<Block>, ghost region: Region)
    returns (cloned: array?<Block?>, ok: bool, ghost made: Region)
    requires Closed(region) && (blocks != null ==> blocks in region.lists && HasAll(region, blocks[..]))
    requires depth <= MAX_DEPTH + 1 && |path| == depth && (forall a :: a in active <==> a in path)
    requires blocks != null ==> AllLead(path, blocks[..], region)
    ensures fresh(made.Objects()) && Closed(made)
    ensures ok == (depth <= MAX_DEPTH && blocks != null && blocks.Length > 0
                   && TreesOf(blocks[..], depth, region).Some?)
    ensures ok ==> cloned in made.lists && cloned.Length == blocks.Length && HasAll(made, cloned[..])
    ensures ok ==> TreesOf(cloned[..], depth, made) == TreesOf(blocks[..], depth, region)
    decreases MAX_DEPTH + 1 - depth, 3
  {
    hide TreesOf, AllLead, HasAll, Copied;
    made := NOWHERE;
    if depth > MAX_DEPTH || blocks == null || blocks.Length == 0 {
      return null, false, made;
    }
    hide Closed;
    cloned := new Block?[blocks.Length](_ => null);
    var i := 0;
    NothingCopied(depth, made, region);
    assert cloned[..0] == [] && blocks[..0] == [];
    while i < blocks.Length
      invariant 0 <= i <= blocks.Length == cloned.Length && cloned != null && fresh(cloned)
      invariant fresh(made.Objects()) && Closed(made) && cloned !in made.Objects()
      invariant Copied(blocks[..i], cloned[..i], depth, region, made)
      modifies cloned
    {
      var copy, fine;
      ghost var more;
      copy, fine, more := CloneNext(blocks, i, cloned[..i], depth, active, path, region, made);
      if !fine {
        EmptyRegion();
        return null, false, NOWHERE;
      }
      made := more;
      cloned[i] := copy;
      assert cloned[..i + 1] == cloned[..i] + [copy];
      i := i + 1;
    }
    assert cloned[..i] == cloned[..] && blocks[..i] == blocks[..];
    CopiedAll(blocks[..], cloned[..], depth, region, made, Region(made.blocks, made.bytes, made.lists + {cloned}));
    ok := true;
    made := Region(made.blocks, made.bytes, made.lists + {cloned});
  }

  /** One more element, beside what was copied before it. */
  method CloneNext(blocks: array<Block?>, i: nat, ghost done: seq<Block?>, depth: nat, active: set<Block>,
                   ghost path: seq<Block>, ghost region: Region, ghost made: Region)
    returns (copy: Block?, ok: bool, ghost more: Region)
    requires Closed(region) && blocks in region.lists && HasAll(region, blocks[..]) && i < blocks.Length
    requires depth <= MAX_DEPTH
    requires |path| == depth && (forall a :: a in active <==> a in path) && AllLead(path, blocks[..], region)
    requires Closed(made) && Copied(blocks[..i], done, depth, region, made)
    ensures fresh(more.Objects() - made.Objects()) && Closed(more)
    ensures ok ==> Copied(blocks[..i + 1], done + [copy], depth, region, more)
    ensures !ok ==> TreesOf(blocks[..], depth, region).None?
    decreases MAX_DEPTH + 1 - depth, 2
  {
    assert blocks[i] in blocks[..];
    assert blocks[..i + 1] == blocks[..i] + [blocks[i]];
    assert Leads(path, blocks[i], region);
    hide TreesOf, TreeOf, Leads, Copied, Closed;
    copy, ok, more := CloneBlock(blocks[i], depth, active, path, region);
    if ok {
      CopiedNext(blocks[..i], done, blocks[i], copy, depth, region, made, more);
    } else {
      NotCopied(blocks[..], i, depth, region);
      Joined(made, more);
    }
    more := made.Plus(more);
  }

  /** The copies so far unfold to what the originals do. */
  ghost predicate Copied(from: seq<Block?>, to: seq<Block?>, depth: nat, region: Region, made: Region)
    requires Closed(region) && Closed(made) && depth <= MAX_DEPTH
    reads region.blocks, region.bytes, region.lists, made.blocks, made.bytes, made.lists
  {
    && HasAll(region, from) && HasAll(made, to)
    && TreesOf(from, depth, region).Some?
    && TreesOf(to, depth, made) == TreesOf(from, depth, region)
  }

  lemma EmptyRegion()
    ensures Closed(NOWHERE)
  {
  }

  lemma NothingCopied(depth: nat, made: Region, region: Region)
    requires Closed(region) && Closed(made) && depth <= MAX_DEPTH
    ensures Copied([], [], depth, region, made)
  {
  }

  lemma CopiedNext(
    from: seq<Block?>, to: seq<Block?>, b: Block?, copy: Block?, depth: nat, region: Region, made: Region,
    more: Region)
    requires Closed(region) && Closed(made) && Closed(more) && depth <= MAX_DEPTH
    requires Copied(from, to, depth, region, made)
    requires (b != null ==> b in region.blocks) && copy in more.blocks
    requires TreeOf(b, depth, region).Some? && TreeOf(copy, depth, more) == TreeOf(b, depth, region)
    ensures Closed(made.Plus(more)) && Copied(from + [b], to + [copy], depth, region, made.Plus(more))
  {
    hide TreeOf;
    Joined(made, more);
    RegionExtendsAll(to, depth, made, made.Plus(more));
    RegionExtends(copy, depth, more, made.Plus(more));
    ListUnfolds(from, b, depth, region);
    ListUnfolds(to, copy, depth, made.Plus(more));
  }

  lemma NotCopied(bs: seq<Block?>, i: nat, depth: nat, region: Region)
    requires Closed(region) && HasAll(region, bs) && i < |bs| && depth <= MAX_DEPTH
    requires bs[i] != null ==> bs[i] in region.blocks
    requires TreeOf(bs[i], depth, region).None?
    ensures TreesOf(bs, depth, region).None?
  {
    assert bs[..i + 1] == bs[..i] + [bs[i]];
    ListUnfolds(bs[..i], bs[i], depth, region);
    PrefixUnfolds(bs, i + 1, depth, region);
  }

  lemma CopiedAll(from: seq<Block?>, to: seq<Block?>, depth: nat, region: Region, made: Region, larger: Region)
    requires Closed(region) && Closed(made) && depth <= MAX_DEPTH
    requires Copied(from, to, depth, region, made) && made.blocks == larger.blocks && made.bytes <= larger.bytes
    requires made.lists <= larger.lists
    ensures Closed(larger)
    ensures HasAll(larger, to) && HasAll(region, from) && TreesOf(from, depth, region).Some?
    ensures TreesOf(to, depth, larger) == TreesOf(from, depth, region)
  {
    forall b | b in larger.blocks ensures HasBody(larger, b.body) {
      assert HasBody(made, b.body);
    }
    RegionExtendsAll(to, depth, made, larger);
  }

  lemma Joined(one: Region, two: Region)
    requires Closed(one) && Closed(two)
    ensures Closed(one.Plus(two))
  {
    forall b | b in one.Plus(two).blocks ensures HasBody(one.Plus(two), b.body) {
      if b in one.blocks {
        assert HasBody(one, b.body);
      } else {
        assert HasBody(two, b.body);
      }
    }
  }

  // ---------------------------------------------------------------- the request

  /** A request owns its prompt: nobody else can reach `own`. The zero value has no prompt. */
  class SteerRequest {
    var prompt: array?<Block?>
    ghost var own: Region

    ghost predicate Valid()
      reads this, own.blocks, own.lists
    {
      Closed(own) && this !in own.Objects() && (prompt != null ==> prompt in own.lists && HasAll(own, prompt[..]))
    }

    /** What the request holds, or nothing if it is malformed. */
    ghost function Holding(): Option<seq<Tree>>
      requires Valid()
      reads this, own.Objects()
    {
      Meaning(prompt, own)
    }

    /** The zero value. */
    constructor ()
      ensures Valid() && fresh(own.Objects()) && Holding() == None
    {
      prompt := null;
      own := NOWHERE;
    }

    /** NewSteerRequest: on success the request means what the prompt means, out of memory of its own. */
    constructor New(input: array?<Block?>, ghost region: Region)
      requires Closed(region) && (input != null ==> input in region.lists && HasAll(region, input[..]))
      ensures Valid() && fresh(own.Objects())
      ensures Holding() == Meaning(input, region)
    {
      var cloned, ok;
      ghost var made;
      LeadsFromNowhere(input, region);
      cloned, ok, made := CloneBlocks(input, 0, {}, [], region);
      prompt := if ok then cloned else null;
      own := made;
    }

    /** Validate: exactly whether the request holds anything. */
    method Validate() returns (ok: bool)
      requires Valid()
      ensures ok == Holding().Some?
    {
      var cloned;
      ghost var made;
      LeadsFromNowhere(prompt, own);
      cloned, ok, made := CloneBlocks(prompt, 0, {}, [], own);
    }

    /** Prompt: a copy that means what the request holds and shares nothing with it, or nil. */
    method Prompt() returns (copy: array?<Block?>, ghost made: Region)
      requires Valid()
      ensures fresh(made.Objects()) && Closed(made)
      ensures copy != null ==> copy in made.lists && HasAll(made, copy[..])
      ensures Meaning(copy, made) == Holding()
    {
      var ok;
      LeadsFromNowhere(prompt, own);
      copy, ok, made := CloneBlocks(prompt, 0, {}, [], own);
      if !ok {
        copy := null;
      }
    }
  }

  lemma LeadsFromNowhere(bs: array?<Block?>, region: Region)
    requires Closed(region) && (bs != null ==> HasAll(region, bs[..]))
    ensures bs != null ==> AllLead([], bs[..], region)
  {
  }

  /** Any change to memory the request does not own leaves it as it is. */
  method Scribble(request: SteerRequest, ghost theirs: Region)
    requires request.Valid() && theirs.Objects() !! request.own.Objects() + {request}
    modifies theirs.Objects()
    ensures request.Valid() && request.Holding() == old(request.Holding()) && request.own == old(request.own)
  {
    hide Closed, HasAll, Meaning, SteerRequest.Valid, SteerRequest.Holding;
    modify theirs.Objects();
  }

  /**
    Immutability: whatever the caller later does to the prompt it passed in, and whatever it does
    to a prompt it got back, a request keeps holding what it was made from.
   */
  method RequestIsImmutable(
    input: array?<Block?>, ghost region: Region)
    returns (request: SteerRequest, last: array?<Block?>, ghost made: Region)
    requires Closed(region) && (input != null ==> input in region.lists && HasAll(region, input[..]))
    modifies region.Objects()
    ensures Closed(made) && (last != null ==> last in made.lists && HasAll(made, last[..]))
    ensures request.Valid() && request.Holding() == old(Meaning(input, region)) == Meaning(last, made)
  {
    hide Closed, HasAll, Meaning, SteerRequest.Valid, SteerRequest.Holding;
    request := new SteerRequest.New(input, region);
    Scribble(request, region);
    var copy;
    copy, made := request.Prompt();
    Scribble(request, made);
    last, made := request.Prompt();
  }
}
