/**
 * The block catalog of the VRMath editor (main.js): each block kind's
 * declarative configuration, the extra `vrmath` record a kind carries, and
 * the generator registered for it. An `Emitter` stands for
 * `Blockly.VRMath.valueToCode(block, name, order)` on the block being
 * generated: the code of the child plugged into input `name`, generated for a
 * slot that tolerates precedence `order`.
 */
module Catalog {
  import opened Wrappers
  import opened Text
  import opened Blocks
  import Order

  datatype Kind = Integer | Real | String | List | Print | Forward | Backward

  /** The key of the kind in `blockDefinitions`, and so the block's `type`. */
  function Id(k: Kind): string
  {
    match k
    case Integer => "integer"
    case Real => "real"
    case String => "string"
    case List => "list"
    case Print => "print"
    case Forward => "forward"
    case Backward => "backward"
  }

  datatype Arg = FieldInput(name: string, text: string) | ValueInput(name: string, check: Option<string>)

  datatype Configuration = Configuration(
    output: Option<string>,
    previousStatement: bool,
    nextStatement: bool,
    message0: string,
    args0: seq<Arg>,
    mutator: Option<string>,
    extensions: seq<string>)

  /** The per-block `vrmath` record. */
  datatype ExtraState = ExtraState(arity: nat)

  datatype Definition = Definition(configuration: Configuration, vrmath: Option<ExtraState>)

  function Expression(output: string, field: string): Configuration
  {
    Configuration(Some(output), false, false, "%1", [FieldInput("value", field)], None, [])
  }

  function Command(keyword: string, arg: Arg): Configuration
  {
    Configuration(None, true, true, keyword + " %1", [arg], None, [])
  }

  /** `blockDefinitions[Id(k)]`, without colours and alignment. */
  function Lookup(k: Kind): Definition
  {
    match k
    case Integer => Definition(Expression("Integer", "0"), None)
    case Real => Definition(Expression("Real", "0.0"), None)
    case String => Definition(Expression("String", "string"), None)
    case List =>
      Definition(
        Configuration(Some("List"), false, false, "list %1 %2",
          [ValueInput("element0", None), ValueInput("element1", None)],
          Some("setArity"), ["addArityMenuItem"]),
        Some(ExtraState(2)))
    case Print => Definition(Command("print", ValueInput("value", None)), None)
    case Forward => Definition(Command("forward", ValueInput("distance", Some("Integer"))), None)
    case Backward => Definition(Command("backward", ValueInput("distance", None)), None)
  }

  /** The `vrmath` record `initializeBlock` copies into each new block of kind `k`. */
  function InitialExtraState(k: Kind): (r: Option<ExtraState>)
    ensures r.Some? <==> k == List
    ensures r.Some? ==> r.value.arity == 2
  {
    Lookup(k).vrmath
  }

  /** The declared inputs of the list kind are the slots of its initial arity, named as the mutator names them. */
  lemma ListDefinitionMatchesArity()
    ensures var c := Lookup(List).configuration;
      && |c.args0| == InitialExtraState(List).value.arity
      && forall i :: 0 <= i < |c.args0| ==> c.args0[i] == ValueInput(ElementName(i), None)
  {
    assert ElementName(0) == "element0";
    assert ElementName(1) == "element1";
  }

  type Emitter = (string, real) -> string

  /** An expression generator's result: the code and its precedence. */
  datatype Fragment = Fragment(code: string, order: real)

  /** What a registered generator returns: a fragment for an expression kind, a line for a statement kind. */
  datatype Code = ExprCode(fragment: Fragment) | StmtCode(line: string)

  /** The `integer` generator: the field text verbatim, atomic. */
  function IntegerGenerator(value: string): (f: Fragment)
    ensures f.code == value && f.order == Order.ATOMIC
  {
    Fragment(value, Order.ATOMIC)
  }

  /** The `real` generator: the field text verbatim, atomic. */
  function RealGenerator(value: string): (f: Fragment)
    ensures f.code == value && f.order == Order.ATOMIC
  {
    Fragment(value, Order.ATOMIC)
  }

  /** The `string` generator: a Logo quoted word, `"` then the field text, with no closing quote and no escaping. */
  function StringGenerator(value: string): (f: Fragment)
    ensures |f.code| == |value| + 1 && f.code[0] == '"' && f.code[1..] == value
    ensures f.order == Order.ATOMIC
  {
    Fragment("\"" + value, Order.ATOMIC)
  }

  /** The tokens the `list` generator collects: `list`, then each slot's code asked for at collection precedence. */
  function ListTokens(arity: nat, emit: Emitter): (t: seq<string>)
    ensures |t| == arity + 1 && t[0] == "list"
    ensures forall i :: 0 <= i < arity ==> t[i + 1] == emit(ElementName(i), Order.COLLECTION)
  {
    ["list"] + seq(arity, i requires 0 <= i < arity => emit(ElementName(i), Order.COLLECTION))
  }

  /** What the `list` generator returns: its tokens joined by single spaces, at precedence NONE. */
  function ListFragment(arity: nat, emit: Emitter): Fragment
  {
    Fragment(Join(ListTokens(arity, emit), " "), Order.NONE)
  }

  /** The `list` generator, which pushes one token per slot onto an array and joins it. */
  method ListGenerator(arity: nat, emit: Emitter) returns (f: Fragment)
    ensures f == ListFragment(arity, emit)
  {
    var tokens := ["list"];
    var i := 0;
    while i < arity
      invariant 0 <= i <= arity
      invariant tokens == ListTokens(i, emit)
    {
      tokens := tokens + [emit(ElementName(i), Order.COLLECTION)];
      i := i + 1;
    }
    f := Fragment(Join(tokens, " "), Order.NONE);
  }

  /** With arity 0 the list generator emits exactly `list`. */
  lemma ListOfNothing(emit: Emitter)
    ensures ListFragment(0, emit).code == "list"
  {
  }

  /**
   * When no slot's code contains a space, splitting the output at spaces gives
   * back `list` and then the code of slots element0 .. element{arity-1}, in order.
   */
  lemma ListTokensRecoverable(arity: nat, emit: Emitter)
    requires forall i :: 0 <= i < arity ==> ' ' !in emit(ElementName(i), Order.COLLECTION)
    ensures var t := Split(ListFragment(arity, emit).code, ' ');
      |t| == arity + 1 && t[0] == "list"
      && forall i :: 0 <= i < arity ==> t[i + 1] == emit(ElementName(i), Order.COLLECTION)
  {
    var t := ListTokens(arity, emit);
    forall k | 0 <= k < |t|
      ensures ' ' !in t[k]
    {
      if k > 0 {
        assert t[k] == emit(ElementName(k - 1), Order.COLLECTION);
      }
    }
    SplitJoin(t, ' ');
  }

  /** A command line: the keyword, one space, the argument code, one line break. */
  function StatementLine(keyword: string, argument: string): string
  {
    keyword + " " + argument + "\n"
  }

  /**
   * A reference reading of a command line: it must end in a line break; the
   * keyword is what precedes the first space, the argument what lies between
   * that space and the final line break.
   */
  function ReadStatement(line: string): Option<(string, string)>
  {
    if line == [] || line[|line| - 1] != '\n' then None
    else
      var body := line[..|line| - 1];
      match FirstIndex(body, ' ')
      case None => None
      case Some(i) => Some((body[..i], body[i + 1..]))
  }

  /** A command line built from a keyword without spaces reads back as that keyword and argument. */
  lemma ReadStatementLine(keyword: string, argument: string)
    requires ' ' !in keyword
    ensures ReadStatement(StatementLine(keyword, argument)) == Some((keyword, argument))
  {
    var line := StatementLine(keyword, argument);
    var body := keyword + [' '] + argument;
    assert line == body + "\n";
    assert line[..|line| - 1] == body;
    FirstIndexAfter(keyword, ' ', argument);
    assert body[..|keyword|] == keyword;
    assert body[|keyword| + 1..] == argument;
  }

  /** The `print` generator: asks for its `value` child at function-call precedence. */
  function PrintGenerator(emit: Emitter): string
  {
    StatementLine("print", emit("value", Order.FUNCTION_CALL))
  }

  /** The `forward` generator: asks for its `distance` child at precedence NONE. */
  function ForwardGenerator(emit: Emitter): string
  {
    StatementLine("forward", emit("distance", Order.NONE))
  }

  /** The `backward` generator: asks for its `distance` child at precedence NONE. */
  function BackwardGenerator(emit: Emitter): string
  {
    StatementLine("backward", emit("distance", Order.NONE))
  }

  /**
   * `print` emits its keyword, one space, the code of its `value` child asked
   * for at function-call precedence, and one line break.
   */
  lemma PrintLine(emit: Emitter)
    ensures ReadStatement(PrintGenerator(emit)) == Some(("print", emit("value", Order.FUNCTION_CALL)))
    ensures |PrintGenerator(emit)| == |emit("value", Order.FUNCTION_CALL)| + 7
  {
    ReadStatementLine("print", emit("value", Order.FUNCTION_CALL));
  }

  /**
   * `forward` emits its keyword, one space, the code of its `distance` child
   * asked for at precedence NONE, and one line break.
   */
  lemma ForwardLine(emit: Emitter)
    ensures ReadStatement(ForwardGenerator(emit)) == Some(("forward", emit("distance", Order.NONE)))
    ensures |ForwardGenerator(emit)| == |emit("distance", Order.NONE)| + 9
  {
    ReadStatementLine("forward", emit("distance", Order.NONE));
  }

  /**
   * `backward` emits its keyword, one space, the code of its `distance` child
   * asked for at precedence NONE, and one line break.
   */
  lemma BackwardLine(emit: Emitter)
    ensures ReadStatement(BackwardGenerator(emit)) == Some(("backward", emit("distance", Order.NONE)))
    ensures |BackwardGenerator(emit)| == |emit("distance", Order.NONE)| + 10
  {
    ReadStatementLine("backward", emit("distance", Order.NONE));
  }

  /**
   * `Blockly.VRMath[Id(k)]`, the generator `initializeBlock` registers, on a
   * block whose `value` field holds `value` and whose `vrmath.arity` is `arity`.
   */
  function Generate(k: Kind, value: string, arity: nat, emit: Emitter): Code
  {
    match k
    case Integer => ExprCode(IntegerGenerator(value))
    case Real => ExprCode(RealGenerator(value))
    case String => ExprCode(StringGenerator(value))
    case List => ExprCode(ListFragment(arity, emit))
    case Print => StmtCode(PrintGenerator(emit))
    case Forward => StmtCode(ForwardGenerator(emit))
    case Backward => StmtCode(BackwardGenerator(emit))
  }

  /**
   * The generator agrees with the configuration: a kind with an output
   * returns a fragment, a kind with previous and next connections returns a
   * line ending in a line break.
   */
  lemma GeneratorMatchesConfiguration(k: Kind, value: string, arity: nat, emit: Emitter)
    ensures var c := Lookup(k).configuration; var g := Generate(k, value, arity, emit);
      && (g.ExprCode? <==> c.output.Some?)
      && (g.StmtCode? <==> c.previousStatement && c.nextStatement)
      && (g.StmtCode? ==> g.line != [] && g.line[|g.line| - 1] == '\n')
  {
  }
}
