/** The command line handed to the launcher: an ordered list of tokens, each
    with a flag telling the build log to mask it. */
module ArgumentLists {

  /** One command-line token and whether the build log masks it. */
  type Token = (string, bool)

  /** An unmasked token. */
  function Plain(arg: string): Token {
    (arg, false)
  }

  /** The number of masked tokens in `tokens`. */
  function MaskedCount(tokens: seq<Token>): nat {
    if tokens == [] then 0 else MaskedCount(tokens[..|tokens| - 1]) + (if tokens[|tokens| - 1].1 then 1 else 0)
  }

  lemma {:induction false} MaskedCountAppend(a: seq<Token>, b: seq<Token>)
    ensures MaskedCount(a + b) == MaskedCount(a) + MaskedCount(b)
    decreases |b|
  {
    if b != [] {
      assert (a + b)[..|a + b| - 1] == a + b[..|b| - 1];
      MaskedCountAppend(a, b[..|b| - 1]);
    } else {
      assert a + b == a;
    }
  }

  lemma {:induction false} NoMaskedTokens(tokens: seq<Token>)
    requires forall k :: 0 <= k < |tokens| ==> !tokens[k].1
    ensures MaskedCount(tokens) == 0
  {
    if tokens != [] {
      NoMaskedTokens(tokens[..|tokens| - 1]);
    }
  }

  /** Masked counts add up over a command line made of seven sections, and
      the second section sits right after the first. */
  lemma MaskedCountSections(a: seq<Token>, b: seq<Token>, c: seq<Token>, d: seq<Token>, e: seq<Token>,
                            f: seq<Token>, g: seq<Token>, k: nat)
    requires k < |b|
    ensures MaskedCount(a + b + c + d + e + f + g) == MaskedCount(a) + MaskedCount(b) + MaskedCount(c)
      + MaskedCount(d) + MaskedCount(e) + MaskedCount(f) + MaskedCount(g)
    ensures (a + b + c + d + e + f + g)[|a| + k] == b[k]
  {
    MaskedCountAppend(a, b);
    MaskedCountAppend(a + b, c);
    MaskedCountAppend(a + b + c, d);
    MaskedCountAppend(a + b + c + d, e);
    MaskedCountAppend(a + b + c + d + e, f);
    MaskedCountAppend(a + b + c + d + e + f, g);
  }

  lemma PrefixOfAppend(a: seq<Token>, b: seq<Token>, k: nat)
    requires k <= |a|
    ensures (a + b)[..k] == a[..k]
  {
  }

  lemma AppendAssociates(a: seq<Token>, b: seq<Token>, c: seq<Token>)
    ensures (a + b) + c == a + (b + c)
  {
  }

  lemma AppendTwo(s: seq<Token>, x: Token, y: Token)
    ensures s + [x] + [y] == s + [x, y]
  {
  }

  lemma AppendThree(s: seq<Token>, x: Token, y: Token, z: Token)
    ensures s + [x] + [y] + [z] == s + [x, y, z]
  {
  }

  lemma AppendFour(s: seq<Token>, w: Token, x: Token, y: Token, z: Token)
    ensures s + [w] + [x] + [y] + [z] == s + [w, x, y, z]
  {
  }

  lemma AppendThreeAssociates(s: seq<Token>, a: seq<Token>, b: seq<Token>, c: seq<Token>)
    ensures s + a + b + c == s + (a + b + c)
  {
  }

  lemma AppendFourAssociates(s: seq<Token>, a: seq<Token>, b: seq<Token>, c: seq<Token>, d: seq<Token>)
    ensures s + a + b + c + d == s + (a + b + c + d)
  {
  }

  lemma AppendFiveAssociates(s: seq<Token>, a: seq<Token>, b: seq<Token>, c: seq<Token>, d: seq<Token>, e: seq<Token>)
    ensures s + a + b + c + d + e == s + (a + b + c + d + e)
  {
  }

  lemma SuffixOfAppend(a: seq<Token>, b: seq<Token>)
    ensures (a + b)[|a|..] == b
  {
  }

  /** The argument list builder the runners fill in before launching. */
  class ArgumentListBuilder {
    var tokens: seq<Token>

    constructor ()
      ensures tokens == []
    {
      tokens := [];
    }

    /** add(String): one unmasked token at the end. */
    method Add(arg: string)
      modifies this
      ensures tokens == old(tokens) + [Plain(arg)]
    {
      tokens := tokens + [Plain(arg)];
    }

    /** add(String, boolean): one token at the end, masked as asked. */
    method AddMasked(arg: string, mask: bool)
      modifies this
      ensures tokens == old(tokens) + [(arg, mask)]
    {
      tokens := tokens + [(arg, mask)];
    }
  }
}
