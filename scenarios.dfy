/** End-to-end consequences of the generator model on small programs. */
module Scenarios {
  import opened Wrappers
  import opened Text
  import opened Blocks
  import Order
  import Catalog
  import Scrub

  /** A block with no comment whose one value input holds block `child`. */
  function CommandBlock(slot: string, child: nat): Scrub.BlockView
  {
    Scrub.BlockView(false, "", false, [Input(InputValue, slot, [], Some(child))])
  }

  lemma QuietCommand(slot: string, child: nat, svc: Scrub.Services)
    requires svc.wrap("", svc.commentWrap - 3) == ""
    requires svc.nestedComments(child) == ""
    ensures Scrub.CommentCode(CommandBlock(slot, child), svc) == ""
  {
    var block := CommandBlock(slot, child);
    assert Scrub.OwnComment(block, svc) == "";
    assert block.inputs[..0] == [];
    assert Scrub.ChildComment(block.inputs[0], svc) == "";
    assert Scrub.ChildComments(block.inputs, svc) == "";
  }

  /** What `valueToCode` yields on a `print` block holding the string block `hello`. */
  function HelloChild(name: string, order: real): string
  {
    if name == "value" then Catalog.StringGenerator("hello").code else ""
  }

  /** What `valueToCode` yields on a `forward` block holding the integer block `5`. */
  function FiveChild(name: string, order: real): string
  {
    if name == "distance" then Catalog.IntegerGenerator("5").code else ""
  }

  lemma PrintHello()
    ensures Catalog.PrintGenerator(HelloChild) == "print \"hello\n"
  {
    assert HelloChild("value", Order.FUNCTION_CALL) == "\"hello";
  }

  lemma ForwardFive()
    ensures Catalog.ForwardGenerator(FiveChild) == "forward 5\n"
  {
    assert FiveChild("distance", Order.NONE) == "5";
  }

  /**
   * A chain `print "hello` followed by `forward 5`, with no comments, generates
   * the two newline-terminated lines in chain order.
   */
  lemma PrintThenForward(svc: Scrub.Services)
    requires svc.wrap("", svc.commentWrap - 3) == ""
    requires svc.nestedComments(2) == "" && svc.nestedComments(4) == ""
    ensures Scrub.ChainCode([Scrub.Statement(CommandBlock("value", 2), Catalog.PrintGenerator(HelloChild)),
                             Scrub.Statement(CommandBlock("distance", 4), Catalog.ForwardGenerator(FiveChild))], svc)
         == "print \"hello\nforward 5\n"
  {
    var first := Scrub.Statement(CommandBlock("value", 2), Catalog.PrintGenerator(HelloChild));
    var second := Scrub.Statement(CommandBlock("distance", 4), Catalog.ForwardGenerator(FiveChild));
    var printLine, forwardLine := "print \"hello\n", "forward 5\n";
    assert first.code == printLine by { PrintHello(); }
    assert second.code == forwardLine by { ForwardFive(); }
    assert Scrub.CommentCode(first.block, svc) == "" by { QuietCommand("value", 2, svc); }
    assert Scrub.CommentCode(second.block, svc) == "" by { QuietCommand("distance", 4, svc); }
    ChainOfTwo(first, second, svc);
    assert "" + printLine + ("" + forwardLine) == "print \"hello\nforward 5\n";
  }

  lemma ChainOfTwo(first: Scrub.Statement, second: Scrub.Statement, svc: Scrub.Services)
    ensures Scrub.ChainCode([first, second], svc)
         == Scrub.CommentCode(first.block, svc) + first.code + (Scrub.CommentCode(second.block, svc) + second.code)
  {
    assert [first, second][1..] == [second];
    assert [second][1..] == [];
    var tail := Scrub.CommentCode(second.block, svc) + second.code;
    assert Scrub.ChainCode([second], svc) == tail + "";
    assert tail + "" == tail;
    assert Scrub.ChainCode([first, second], svc) == Scrub.Scrubbed(first.block, first.code, tail, svc);
  }

  /** A list of arity 3 holding the literals 1, 2 and 3 generates `list 1 2 3` at precedence NONE. */
  lemma ListOfThreeLiterals()
    ensures var child := (name: string, order: real) =>
        if name == ElementName(0) then Catalog.IntegerGenerator("1").code
        else if name == ElementName(1) then Catalog.IntegerGenerator("2").code
        else if name == ElementName(2) then Catalog.IntegerGenerator("3").code
        else "";
      Catalog.ListFragment(3, child) == Catalog.Fragment("list 1 2 3", Order.NONE)
  {
    var child := (name: string, order: real) =>
        if name == ElementName(0) then Catalog.IntegerGenerator("1").code
        else if name == ElementName(1) then Catalog.IntegerGenerator("2").code
        else if name == ElementName(2) then Catalog.IntegerGenerator("3").code
        else "";
    assert ElementName(0) == "element0" && ElementName(1) == "element1" && ElementName(2) == "element2";
    assert Catalog.ListTokens(3, child) == ["list", "1", "2", "3"];
  }
}
