/**
 * What the generator and the mutator see of a Blockly block's inputs: the
 * input's kind, its name, the label fields in its row and the block plugged
 * into it (by block id), if any.
 */
module Blocks {
  import opened Wrappers
  import JsNumber

  /** Blockly.INPUT_VALUE, Blockly.NEXT_STATEMENT and Blockly.DUMMY_INPUT. */
  datatype InputType = InputValue | NextStatement | DummyInput

  datatype Input = Input(kind: InputType, name: string, fields: seq<string>, target: Option<nat>)

  /** `'element' + i`, the name of the i-th slot of a variadic block. */
  function ElementName(i: nat): string
  {
    "element" + JsNumber.ToString(i)
  }

  lemma ElementNameInjective(i: nat, j: nat)
    requires ElementName(i) == ElementName(j)
    ensures i == j
  {
    assert JsNumber.ToString(i) == ElementName(i)[7..];
    assert JsNumber.ToString(j) == ElementName(j)[7..];
    JsNumber.ToStringInjective(i, j);
  }

  lemma ElementNameNotEmpty(i: nat)
    ensures ElementName(i) != "empty"
  {
    assert ElementName(i)[1] == 'l';
  }
}
