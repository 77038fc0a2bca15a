/**
 * The statement-level helpers of the VRMath generator: `scrub_` (comments of
 * a block and of its value children, then its code, then the code of the
 * statements chained after it), `scrubNakedValue` and `finish`.
 */
module Scrub {
  import opened Wrappers
  import opened Text
  import opened Blocks

  /**
   * The Blockly services `scrub_` calls, whose code is not part of this model:
   * `Blockly.utils.wrap`, the generator's `COMMENT_WRAP` width,
   * `prefixLines`, and `allNestedComments` applied to a child, by block id.
   */
  datatype Services = Services(
    wrap: (string, int) -> string,
    commentWrap: int,
    prefixLines: (string, string) -> string,
    nestedComments: nat -> string)

  /**
   * What `scrub_` reads of a block: whether its output is plugged into a
   * parent, its comment text ("" when it has none), whether it defines a
   * procedure (`getProcedureDef` exists), and its input list.
   */
  datatype BlockView = BlockView(plugged: bool, commentText: string, isProcedureDef: bool, inputs: seq<Input>)

  /** A naked value (a top-level expression) gets exactly one line break appended. */
  function ScrubNakedValue(line: string): (r: string)
    ensures |r| == |line| + 1 && r[..|line|] == line && r[|line|] == '\n'
  {
    line + "\n"
  }

  /** `finish`: the definitions it would prepend are commented out, so the code comes back unchanged. */
  function Finish(code: string): (r: string)
    ensures r == code
  {
    code
  }

  /** The block's own comment, wrapped: a `"""` block for a procedure definition, `# ` lines otherwise. */
  function OwnComment(block: BlockView, svc: Services): string
  {
    var comment := svc.wrap(block.commentText, svc.commentWrap - 3);
    if comment == "" then ""
    else if block.isProcedureDef then "\"\"\"" + comment + "\n\"\"\"\n"
    else svc.prefixLines(comment + "\n", "# ")
  }

  /** The comment one input contributes: only a value input with a block plugged in can. */
  function ChildComment(input: Input, svc: Services): string
  {
    if input.kind == InputValue && input.target.Some? then
      var comment := svc.nestedComments(input.target.value);
      if comment == "" then "" else svc.prefixLines(comment, "# ")
    else ""
  }

  /** The comments of the children plugged into `inputs`, in slot order. */
  function ChildComments(inputs: seq<Input>, svc: Services): string
  {
    if inputs == [] then ""
    else ChildComments(inputs[..|inputs| - 1], svc) + ChildComment(inputs[|inputs| - 1], svc)
  }

  /** Comments are collected only for a block whose output is not plugged into a parent. */
  function CommentCode(block: BlockView, svc: Services): string
  {
    if block.plugged then "" else OwnComment(block, svc) + ChildComments(block.inputs, svc)
  }

  /** What `scrub_(block, code)` returns when the statements after the block generate `nextCode`. */
  function Scrubbed(block: BlockView, code: string, nextCode: string, svc: Services): string
  {
    CommentCode(block, svc) + code + nextCode
  }

  /** `scrub_`, with `nextCode` standing for `blockToCode` of the next block ("" when there is none). */
  method Scrub(block: BlockView, code: string, nextCode: string, svc: Services) returns (r: string)
    ensures r == Scrubbed(block, code, nextCode, svc)
  {
    var commentCode := "";
    if !block.plugged {
      var comment := svc.wrap(block.commentText, svc.commentWrap - 3);
      if comment != "" {
        if block.isProcedureDef {
          commentCode := commentCode + "\"\"\"" + comment + "\n\"\"\"\n";
        } else {
          commentCode := commentCode + svc.prefixLines(comment + "\n", "# ");
        }
      }
      var i := 0;
      while i < |block.inputs|
        invariant 0 <= i <= |block.inputs|
        invariant commentCode == OwnComment(block, svc) + ChildComments(block.inputs[..i], svc)
      {
        assert block.inputs[..i + 1][..i] == block.inputs[..i];
        if block.inputs[i].kind == InputValue {
          var child := block.inputs[i].target;
          if child.Some? {
            var nested := svc.nestedComments(child.value);
            if nested != "" {
              commentCode := commentCode + svc.prefixLines(nested, "# ");
            }
          }
        }
        i := i + 1;
      }
      assert block.inputs[..i] == block.inputs;
    }
    r := commentCode + code + nextCode;
  }

  /**
   * `scrub_` puts the comments first, then the block's code, then the code of
   * the next statements; a block plugged into a parent gets no comment.
   */
  lemma ScrubbedLayout(block: BlockView, code: string, nextCode: string, svc: Services)
    ensures var r := Scrubbed(block, code, nextCode, svc);
      && |r| == |CommentCode(block, svc)| + |code| + |nextCode|
      && r[..|CommentCode(block, svc)|] == CommentCode(block, svc)
      && r[|r| - |nextCode|..] == nextCode
      && r[|r| - |nextCode| - |code|..|r| - |nextCode|] == code
      && (block.plugged ==> r == code + nextCode)
  {
  }

  /** Comments of consecutive input ranges follow each other. */
  lemma {:induction false} ChildCommentsAppend(a: seq<Input>, b: seq<Input>, svc: Services)
    ensures ChildComments(a + b, svc) == ChildComments(a, svc) + ChildComments(b, svc)
  {
    if b == [] {
      assert a + b == a;
    } else {
      assert (a + b)[..|a + b| - 1] == a + b[..|b| - 1];
      assert (a + b)[|a + b| - 1] == b[|b| - 1];
      ChildCommentsAppend(a, b[..|b| - 1], svc);
    }
  }

  /** The value inputs of `inputs`, in order. */
  function ValueInputs(inputs: seq<Input>): seq<Input>
  {
    if inputs == [] then []
    else
      var last := inputs[|inputs| - 1];
      ValueInputs(inputs[..|inputs| - 1]) + (if last.kind == InputValue then [last] else [])
  }

  /** Statement and dummy inputs contribute nothing: only the value inputs count, in their order. */
  lemma {:induction false} OnlyValueInputsComment(inputs: seq<Input>, svc: Services)
    ensures ChildComments(inputs, svc) == ChildComments(ValueInputs(inputs), svc)
  {
    if inputs != [] {
      var init, last := inputs[..|inputs| - 1], inputs[|inputs| - 1];
      OnlyValueInputsComment(init, svc);
      var tail := if last.kind == InputValue then [last] else [];
      ChildCommentsAppend(ValueInputs(init), tail, svc);
      if tail == [] {
        assert ValueInputs(init) + tail == ValueInputs(init);
      } else {
        assert tail[..0] == [];
      }
    }
  }

  /** A statement block of a chain, with the code its own generator returned. */
  datatype Statement = Statement(block: BlockView, code: string)

  /** `blockToCode` of the first block of a chain: each `scrub_` appends the code of the rest. */
  function ChainCode(chain: seq<Statement>, svc: Services): string
  {
    if chain == [] then ""
    else Scrubbed(chain[0].block, chain[0].code, ChainCode(chain[1..], svc), svc)
  }

  /** A chain's code is its first block's comments and code, then the code of the rest. */
  lemma ChainCons(first: Statement, rest: seq<Statement>, svc: Services)
    ensures ChainCode([first] + rest, svc) == CommentCode(first.block, svc) + first.code + ChainCode(rest, svc)
  {
    var chain := [first] + rest;
    assert chain[0] == first;
    assert chain[1..] == rest;
  }

  lemma Regroup(h: string, x: string, y: string)
    ensures h + (x + y) == (h + x) + y
  {
  }

  lemma {:induction false} ChainAppend(a: seq<Statement>, b: seq<Statement>, svc: Services)
    ensures ChainCode(a + b, svc) == ChainCode(a, svc) + ChainCode(b, svc)
  {
    if a == [] {
      assert a + b == b;
    } else {
      var first, rest := a[0], a[1..];
      assert a == [first] + rest;
      assert a + b == [first] + (rest + b);
      ChainAppend(rest, b, svc);
      ChainCons(first, rest + b, svc);
      ChainCons(first, rest, svc);
      Regroup(CommentCode(first.block, svc) + first.code, ChainCode(rest, svc), ChainCode(b, svc));
    }
  }

  /** The chain's text ends with the last block's comments and code: nothing is appended after it. */
  lemma ChainEndsWithLast(chain: seq<Statement>, svc: Services)
    requires chain != []
    ensures var last := chain[|chain| - 1];
      ChainCode(chain, svc) == ChainCode(chain[..|chain| - 1], svc) + CommentCode(last.block, svc) + last.code
  {
    var init, last := chain[..|chain| - 1], chain[|chain| - 1];
    assert chain == init + [last];
    ChainAppend(init, [last], svc);
    assert [last] == [last] + [];
    ChainCons(last, [], svc);
    var own := CommentCode(last.block, svc) + last.code;
    assert own + "" == own;
    Regroup(ChainCode(init, svc), CommentCode(last.block, svc), last.code);
  }

  function Codes(chain: seq<Statement>): seq<string>
  {
    seq(|chain|, i requires 0 <= i < |chain| => chain[i].code)
  }

  /** Without comments, a chain generates each block's code in chain order and nothing else. */
  lemma {:induction false} ChainWithoutComments(chain: seq<Statement>, svc: Services)
    requires forall i :: 0 <= i < |chain| ==> CommentCode(chain[i].block, svc) == ""
    ensures ChainCode(chain, svc) == Concat(Codes(chain))
  {
    if chain != [] {
      ChainWithoutComments(chain[1..], svc);
      assert Codes(chain)[1..] == Codes(chain[1..]);
    }
  }
}
