/** Nested message content and its bounded flattening to text. */
module Content {
  import opened Options

  /** Message content: a string, a list of blocks, or any other JSON value (of which only its
      truthiness is ever looked at). */
  datatype Content =
    | Text(text: string)
    | Blocks(blocks: seq<Block>)
    | Other(truthy: bool)

  /** A list element: a bare string, an object with the four fields the router reads, or
      anything else. `text` is absent when the field is missing or not a string. */
  datatype Block =
    | StringBlock(s: string)
    | ObjectBlock(kind: string, isError: bool, text: Option<string>, content: Content)
    | OpaqueBlock

  /** An element of the message history. Only objects are inspected; a missing role is "". */
  datatype Message = NotAnObject | Message(role: string, content: Content)

  function Take(s: string, limit: nat): (r: string)
    ensures |r| == Min(|s|, limit)
    ensures r <= s
  {
    if |s| <= limit then s else s[..limit]
  }

  /** All the text of a content value, without any bound. */
  function Flat(c: Content): string
    decreases c
  {
    match c
    case Text(s) => s
    case Blocks(bs) => FlatBlocks(bs)
    case Other(_) => ""
  }

  function FlatBlocks(bs: seq<Block>): string
    decreases bs
  {
    if bs == [] then "" else FlatBlock(bs[0]) + FlatBlocks(bs[1..])
  }

  function FlatBlock(b: Block): string
    decreases b
  {
    match b
    case StringBlock(s) => s
    case ObjectBlock(_, _, Some(t), _) => t
    case ObjectBlock(_, _, None, c) => Flat(c)
    case OpaqueBlock => ""
  }

  /** What bounded flattening yields: the first `limit` characters of all the text. */
  function Flattened(c: Content, limit: nat): (r: string) {
    Take(Flat(c), limit)
  }

  lemma {:induction false} FlatBlocksAppend(a: seq<Block>, b: seq<Block>)
    ensures FlatBlocks(a + b) == FlatBlocks(a) + FlatBlocks(b)
  {
    if a == [] {
      assert a + b == b;
    } else {
      assert (a + b)[1..] == a[1..] + b;
      FlatBlocksAppend(a[1..], b);
    }
  }

  /** The remaining-limit discipline: bounding a part by what is left bounds the whole. */
  lemma TakeAppend(a: string, b: string, limit: nat)
    ensures |a| <= limit ==> Take(a + b, limit) == a + Take(b, limit - |a|)
    ensures |a| >= limit ==> Take(a + b, limit) == Take(a, limit)
  {
  }

  /** One more block, bounded by what is left, extends the bounded prefix by one block. */
  lemma OneMoreBlock(bs: seq<Block>, i: nat, limit: nat, sofar: string, text: string)
    requires i < |bs| && sofar == Take(FlatBlocks(bs[..i]), limit)
    requires Take(text, limit - |sofar|) == Take(FlatBlock(bs[i]), limit - |sofar|)
    ensures sofar + Take(text, limit - |sofar|) == Take(FlatBlocks(bs[..i + 1]), limit)
  {
    hide FlatBlock, Flat;
    FlatBlocksAppend(bs[..i], [bs[i]]);
    assert bs[..i + 1] == bs[..i] + [bs[i]];
    assert FlatBlocks([bs[i]]) == FlatBlock(bs[i]);
    TakeAppend(FlatBlocks(bs[..i]), FlatBlock(bs[i]), limit);
  }

  /** Once the limit is reached, the remaining blocks make no difference. */
  lemma LimitReached(bs: seq<Block>, i: nat, limit: nat)
    requires i <= |bs| && |Take(FlatBlocks(bs[..i]), limit)| >= limit
    ensures Take(FlatBlocks(bs[..i]), limit) == Take(FlatBlocks(bs), limit)
  {
    hide FlatBlocks;
    assert bs[..i] + bs[i..] == bs;
    FlatBlocksAppend(bs[..i], bs[i..]);
    TakeAppend(FlatBlocks(bs[..i]), FlatBlocks(bs[i..]), limit);
  }

  /** The text of one block, at least as much of it as the remaining limit lets through. */
  method BlockText(block: Block, limit: nat) returns (text: string)
    ensures Take(text, limit) == Take(FlatBlock(block), limit)
    decreases block
  {
    text := "";
    match block {
      case StringBlock(s) =>
        text := s;
      case ObjectBlock(_, _, t, inner) =>
        if t.Some? {
          text := t.value;
        } else if !inner.Other? {
          text := FlattenContent(inner, limit);
        }
      case OpaqueBlock =>
    }
  }

  /** The router's flattening: a loop over the blocks that threads the remaining limit through
      nested content and stops early. */
  method FlattenContent(c: Content, limit: nat) returns (r: string)
    ensures r == Flattened(c, limit)
    decreases c
  {
    hide FlatBlocks, FlatBlock, Take, Min;
    if c.Text? {
      return Take(c.text, limit);
    }
    r := "";
    NothingYet(limit);
    if c.Blocks? {
      var i := 0;
      assert c.blocks[..0] == [];
      while i < |c.blocks|
        invariant 0 <= i <= |c.blocks| && |r| <= limit
        invariant r == Take(FlatBlocks(c.blocks[..i]), limit)
      {
        if |r| >= limit {
          LimitReached(c.blocks, i, limit);
          return;
        }
        var text := BlockText(c.blocks[i], limit - |r|);
        OneMoreBlock(c.blocks, i, limit, r, text);
        r := r + Take(text, limit - |r|);
        TakenFits(FlatBlocks(c.blocks[..i + 1]), limit);
        i := i + 1;
      }
      assert c.blocks[..i] == c.blocks;
    }
  }

  lemma NothingYet(limit: nat)
    ensures Take(FlatBlocks([]), limit) == "" && Take("", limit) == ""
  {
  }

  lemma TakenFits(s: string, limit: nat)
    ensures |Take(s, limit)| <= limit
  {
  }

  /** Results at two limits are prefixes of one another. */
  lemma LimitsNest(c: Content, small: nat, large: nat)
    requires small <= large
    ensures Flattened(c, small) <= Flattened(c, large)
    ensures Flattened(c, small) == Take(Flattened(c, large), small)
  {
  }

  /** Appending blocks changes the result exactly when there is room left and text to add. */
  lemma AppendedTextShowsOnlyBelowTheLimit(bs: seq<Block>, more: seq<Block>, limit: nat)
    ensures Flattened(Blocks(bs + more), limit) == Flattened(Blocks(bs), limit) <==>
            |FlatBlocks(bs)| >= limit || FlatBlocks(more) == ""
  {
    FlatBlocksAppend(bs, more);
    TakeAppend(FlatBlocks(bs), FlatBlocks(more), limit);
  }

  /** Where the text comes from. A string is its own text; a list is the text of its elements in a
      row; an object's own text wins over its nested content; anything else has none. Together with
      the bound, that determines every result. */
  lemma WhereTextComesFrom(s: string, bs: seq<Block>, b: Block, truthy: bool)
    ensures Flat(Text(s)) == s && Flat(Other(truthy)) == "" && Flat(Blocks([])) == ""
    ensures Flat(Blocks(bs + [b])) == Flat(Blocks(bs)) + Flat(Blocks([b]))
    ensures Flat(Blocks([b])) == match b
                                 case StringBlock(own) => own
                                 case ObjectBlock(_, _, Some(own), _) => own
                                 case ObjectBlock(_, _, None, inner) => Flat(inner)
                                 case OpaqueBlock => ""
  {
    FlatBlocksAppend(bs, [b]);
    assert [b][1..] == [];
  }
}
