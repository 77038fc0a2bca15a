/**
 * The `setArity` mutator of the variadic `list` block (main.js): the input
 * list of a block is resized to a requested arity, `triggerArity` records the
 * resize as one change event, and the "Change size..." menu entry turns the
 * text typed into its prompt into an arity.
 */
module Arity {
  import opened Wrappers
  import opened Blocks
  import JsNumber
  import Catalog

  function Min(a: nat, b: nat): nat { if a <= b then a else b }

  /** The dummy input that stands in for the slots at arity 0, labelled with the block type. */
  function EmptyInput(blockType: string): Input
  {
    Input(DummyInput, "empty", [blockType], None)
  }

  /**
   * The slot the mutator appends for index `i`, with nothing plugged in. Only
   * `element0` carries the block-type label, as the message `list %1 %2` puts
   * the word in front of the first slot.
   */
  function NewElement(i: nat, blockType: string): Input
  {
    Input(InputValue, ElementName(i), if i == 0 then [blockType] else [], None)
  }

  function FreshElements(from: nat, to: nat, blockType: string): (r: seq<Input>)
    requires from <= to
    ensures |r| == to - from
    ensures forall j :: 0 <= j < |r| ==> r[j] == NewElement(from + j, blockType)
  {
    seq(to - from, j requires 0 <= j < to - from => NewElement(from + j, blockType))
  }

  /** Input `x` is slot `i` of the block: a value input with the slot's name and label; whatever is plugged into it is free. */
  predicate IsElementAt(x: Input, i: nat, blockType: string)
  {
    x.kind == InputValue && x.name == ElementName(i) && x.fields == (if i == 0 then [blockType] else [])
  }

  /**
   * The shapes the mutator keeps a variadic block in: the lone `empty`
   * placeholder, or the slots element0 .. element{k-1} for some k > 0.
   */
  predicate WellShaped(inputs: seq<Input>, blockType: string)
  {
    || inputs == [EmptyInput(blockType)]
    || (|inputs| > 0 && forall i :: 0 <= i < |inputs| ==> IsElementAt(inputs[i], i, blockType))
  }

  /** `block.getInput(name)` is not null. */
  predicate HasInput(inputs: seq<Input>, name: string)
  {
    exists i :: 0 <= i < |inputs| && inputs[i].name == name
  }

  /** `actualArity` of `domToMutation`: 0 when the placeholder is there, the number of inputs otherwise. */
  function ActualArity(inputs: seq<Input>): nat
  {
    if HasInput(inputs, "empty") then 0 else |inputs|
  }

  /** `block.removeInput(name)`: the first input with that name disappears. */
  function RemoveInput(inputs: seq<Input>, name: string): seq<Input>
  {
    if inputs == [] then []
    else if inputs[0].name == name then inputs[1..]
    else [inputs[0]] + RemoveInput(inputs[1..], name)
  }

  /** The input list `domToMutation(n)` leaves: the placeholder alone at 0, otherwise the kept slots and then fresh ones. */
  function Resized(inputs: seq<Input>, n: nat, blockType: string): seq<Input>
    requires WellShaped(inputs, blockType)
  {
    if n == 0 then [EmptyInput(blockType)]
    else
      var m := Min(ActualArity(inputs), n);
      inputs[..m] + FreshElements(m, n, blockType)
  }

  lemma ActualArityOfShape(inputs: seq<Input>, blockType: string)
    requires WellShaped(inputs, blockType)
    ensures ActualArity(inputs) == if inputs == [EmptyInput(blockType)] then 0 else |inputs|
  {
    if inputs != [EmptyInput(blockType)] {
      forall i | 0 <= i < |inputs|
        ensures inputs[i].name != "empty"
      {
        ElementNameNotEmpty(i);
      }
    } else {
      assert inputs[0].name == "empty";
    }
  }

  lemma {:induction false} RemoveAfter(p: seq<Input>, x: Input, t: seq<Input>, name: string)
    requires forall j :: 0 <= j < |p| ==> p[j].name != name
    requires x.name == name
    ensures RemoveInput(p + [x] + t, name) == p + t
  {
    if p == [] {
      assert p + [x] + t == [x] + t;
    } else {
      var s := p + [x] + t;
      assert s[0] == p[0];
      assert s[1..] == p[1..] + [x] + t;
      RemoveAfter(p[1..], x, t, name);
    }
  }

  /** Removing the highest slot `i` of slots 0..i, whatever placeholder follows them. */
  lemma RemoveHighest(s: seq<Input>, i: nat, tail: seq<Input>, blockType: string)
    requires i < |s|
    requires forall j :: 0 <= j <= i ==> IsElementAt(s[j], j, blockType)
    requires tail == [] || tail == [EmptyInput(blockType)]
    ensures RemoveInput(s[..i + 1] + tail, ElementName(i)) == s[..i] + tail
  {
    forall j | 0 <= j < i
      ensures s[..i][j].name != ElementName(i)
    {
      if s[j].name == ElementName(i) {
        ElementNameInjective(j, i);
      }
    }
    assert s[..i + 1] == s[..i] + [s[i]];
    RemoveAfter(s[..i], s[i], tail, ElementName(i));
  }

  /**
   * After a resize to `n` the block is well shaped with arity `n`: for `n > 0`
   * its inputs are exactly element0 .. element{n-1}, with no placeholder; for
   * `n == 0` they are exactly the placeholder.
   */
  lemma ResizedShape(s: seq<Input>, n: nat, blockType: string)
    requires WellShaped(s, blockType)
    ensures var r := Resized(s, n, blockType);
      && WellShaped(r, blockType) && ActualArity(r) == n
      && (n == 0 ==> r == [EmptyInput(blockType)])
      && (n > 0 ==> |r| == n && !HasInput(r, "empty")
                    && forall i :: 0 <= i < n ==> r[i].kind == InputValue && r[i].name == ElementName(i))
  {
    ActualArityOfShape(s, blockType);
    var r := Resized(s, n, blockType);
    if n > 0 {
      var m := Min(ActualArity(s), n);
      forall i | 0 <= i < n
        ensures IsElementAt(r[i], i, blockType)
      {
        if i >= m {
          assert r[i] == NewElement(i, blockType);
        }
      }
      assert r[0].name == ElementName(0);
      ElementNameNotEmpty(0);
      ActualArityOfShape(r, blockType);
    } else {
      ActualArityOfShape(r, blockType);
    }
  }

  /**
   * A resize keeps the slots below both arities as they were, with whatever
   * is plugged into them, and adds the others with nothing plugged in.
   */
  lemma ResizeKeepsLowSlots(s: seq<Input>, n: nat, blockType: string)
    requires WellShaped(s, blockType)
    ensures var r := Resized(s, n, blockType); var m := Min(ActualArity(s), n);
      && |r| >= m && r[..m] == s[..m]
      && forall i :: m <= i < n ==> r[i] == NewElement(i, blockType)
  {
    ActualArityOfShape(s, blockType);
  }

  /** `Resized` by the branch `domToMutation` takes: trimming, appending, or neither. */
  lemma ResizedByBranch(s: seq<Input>, n: nat, blockType: string)
    requires WellShaped(s, blockType)
    ensures var k := ActualArity(s); var r := Resized(s, n, blockType);
      && (k > n ==> r == s[..n] + (if n == 0 then [EmptyInput(blockType)] else []))
      && (k < n ==> r == s[..k] + FreshElements(k, n, blockType))
      && (k == n ==> r == s)
      && (k == 0 ==> s[..k] == [])
  {
    ActualArityOfShape(s, blockType);
  }

  /** Resizing to the current arity changes nothing. */
  lemma ResizeToSameArity(s: seq<Input>, blockType: string)
    requires WellShaped(s, blockType)
    ensures Resized(s, ActualArity(s), blockType) == s
  {
    ActualArityOfShape(s, blockType);
  }

  /**
   * Resizing to `n` and back to the old arity `k` restores `k` slots: the
   * slots below both arities keep their children, the slots that were removed
   * come back empty. Growing and shrinking back restores the inputs exactly.
   */
  lemma ResizeRoundTrip(s: seq<Input>, n: nat, blockType: string)
    requires WellShaped(s, blockType)
    ensures var k := ActualArity(s); var m := Min(k, n);
      && WellShaped(Resized(s, n, blockType), blockType)
      && Resized(Resized(s, n, blockType), k, blockType)
         == (if k == 0 then s else s[..m] + FreshElements(m, k, blockType))
      && (n >= k ==> Resized(Resized(s, n, blockType), k, blockType) == s)
  {
    ActualArityOfShape(s, blockType);
    ResizedShape(s, n, blockType);
    var k := ActualArity(s);
    var r := Resized(s, n, blockType);
    if k > 0 && n > 0 {
      ResizeKeepsLowSlots(s, n, blockType);
      var m := Min(k, n);
      assert r[..m] == s[..m];
      if n >= k {
        assert r[..k] == s;
      }
    }
  }

  /** The mutation snapshot `mutationToDom` takes: the `arity` attribute. */
  datatype Mutation = Mutation(arity: nat)

  /** `Blockly.Events.BlockChange(block, 'mutation', null, old, new)`. */
  datatype ChangeEvent = BlockChange(blockId: nat, element: string, name: Option<string>, oldValue: Mutation, newValue: Mutation)

  /** The events handed to `Blockly.Events.fire`, in order. */
  class EventLog {
    var fired: seq<ChangeEvent>

    constructor ()
      ensures fired == []
    {
      fired := [];
    }
  }

  /** A `list` block: its id, its type, its input list and its own copy of the `vrmath` record. */
  class ListBlock {
    const id: nat
    const blockType: string
    var inputs: seq<Input>
    var arity: nat

    ghost predicate Valid()
      reads this
    {
      WellShaped(inputs, blockType) && arity == ActualArity(inputs)
    }

    /** `jsonInit` of the `list` configuration, then the copy of its `vrmath` record. */
    constructor (id: nat)
      ensures Valid() && this.id == id && blockType == "list"
      ensures arity == 2 && inputs == [NewElement(0, "list"), NewElement(1, "list")]
    {
      this.id := id;
      blockType := Catalog.Id(Catalog.List);
      inputs := [NewElement(0, "list"), NewElement(1, "list")];
      arity := Catalog.InitialExtraState(Catalog.List).value.arity;
      new;
      assert ElementName(0) != "empty" by { ElementNameNotEmpty(0); }
      assert ElementName(1) != "empty" by { ElementNameNotEmpty(1); }
      ActualArityOfShape(inputs, blockType);
    }

    /** `mutationToDom`. */
    function MutationToDom(): Mutation
      reads this
    {
      Mutation(arity)
    }

    /**
     * `domToMutation` of a mutation whose arity is `expected`: trims surplus
     * slots from the highest index down or appends missing ones in increasing
     * order, swapping the placeholder in or out at arity 0.
     */
    method DomToMutation(expected: nat)
      requires WellShaped(inputs, blockType)
      modifies this
      ensures arity == expected
      ensures inputs == Resized(old(inputs), expected, blockType)
      ensures Valid()
    {
      ActualArityOfShape(inputs, blockType);
      var actual := ActualArity(inputs);
      arity := expected;
      if expected > 0 && actual == 0 {
        assert inputs == [EmptyInput(blockType)] + [];
        inputs := RemoveInput(inputs, "empty");
      } else if expected == 0 && actual > 0 {
        inputs := inputs + [EmptyInput(blockType)];
      }
      ghost var tail := if expected == 0 && actual > 0 then [EmptyInput(blockType)] else [];
      if actual > expected {
        ghost var slots := old(inputs);
        assert |slots| == actual;
        assert forall j :: 0 <= j < actual ==> IsElementAt(slots[j], j, blockType);
        var i: int := actual - 1;
        assert slots[..i + 1] == slots;
        while i >= expected
          invariant expected - 1 <= i < actual
          invariant arity == expected
          invariant inputs == slots[..i + 1] + tail
        {
          RemoveHighest(slots, i, tail, blockType);
          inputs := RemoveInput(inputs, ElementName(i));
          assert inputs == slots[..i] + tail;
          i := i - 1;
        }
        assert inputs == slots[..expected] + tail;
      } else if actual < expected {
        var i := actual;
        assert old(inputs)[..actual] == (if actual == 0 then [] else old(inputs));
        while i < expected
          invariant actual <= i <= expected
          invariant arity == expected
          invariant inputs == old(inputs)[..actual] + FreshElements(actual, i, blockType)
        {
          inputs := inputs + [NewElement(i, blockType)];
          i := i + 1;
        }
        assert inputs == old(inputs)[..actual] + FreshElements(actual, expected, blockType);
      }
      ResizedByBranch(old(inputs), expected, blockType);
      ResizedShape(old(inputs), expected, blockType);
    }
  }

  /**
   * `triggerArity(block, arity)`: snapshot, store the new arity, resize the
   * inputs to it, and fire one change event carrying both snapshots.
   */
  method TriggerArity(block: ListBlock, arity: nat, log: EventLog)
    requires block.Valid()
    modifies block, log
    ensures block.Valid() && block.arity == arity
    ensures block.inputs == Resized(old(block.inputs), arity, block.blockType)
    ensures log.fired == old(log.fired)
      + [BlockChange(block.id, "mutation", None, Mutation(old(block.arity)), Mutation(arity))]
  {
    var oldMutation := block.MutationToDom();
    block.arity := arity;
    var newMutation := block.MutationToDom();
    block.DomToMutation(newMutation.arity);
    log.fired := log.fired + [BlockChange(block.id, "mutation", None, oldMutation, newMutation)];
  }

  /**
   * `new RegExp(/^\d+/).test(size)`: the text starts with a decimal digit.
   * A cancelled prompt returns null (`None`), which tests as the text "null".
   */
  predicate MatchesArityPattern(size: Option<string>)
  {
    size.Some? && |size.value| > 0 && JsNumber.IsDigit(size.value[0])
  }

  /** What the menu callback does with the prompt's answer, as written. */
  datatype PromptOutcome = Unchanged | Resize(arity: nat) | ResizeToNaN

  /**
   * The callback as written: a text that passes the test is handed to
   * `parseInt`, whose NaN is passed on to `triggerArity` as the arity.
   */
  function PromptAsWritten(size: Option<string>): (o: PromptOutcome)
    ensures o.Unchanged? <==> !MatchesArityPattern(size)
    ensures o.ResizeToNaN? <==> MatchesArityPattern(size) && JsNumber.HasHexPrefix(size.value)
                                && JsNumber.LeadingHexDigits(size.value[2..]) == []
  {
    if !MatchesArityPattern(size) then Unchanged
    else match JsNumber.ParseInt(size.value)
      case Some(n) => Resize(n)
      case None => ResizeToNaN
  }

  /** `"0x"` starts with a digit, so the test accepts it, but `parseInt` reads a bare hexadecimal prefix as NaN. */
  lemma BareHexPrefixGivesNaN()
    ensures PromptAsWritten(Some("0x")) == ResizeToNaN
    ensures PromptAsWritten(Some("0Xz")) == ResizeToNaN
  {
    assert JsNumber.LeadingHexDigits("z") == [];
  }

  /**
   * The callback with the NaN case rejected: every accepted text yields a
   * non-negative integer arity, the one the code as written would store.
   */
  function PromptArity(size: Option<string>): (r: Option<nat>)
    ensures r.Some? <==> PromptAsWritten(size).Resize?
    ensures r.Some? ==> PromptAsWritten(size) == Resize(r.value)
  {
    match PromptAsWritten(size)
    case Resize(n) => Some(n)
    case Unchanged => None
    case ResizeToNaN => None
  }

  /**
   * The decimal text of `n` followed by anything that is not a digit is read
   * as `n`: the pattern has no end anchor, so "12x" gives 12.
   */
  lemma PromptReadsLeadingNumber(n: nat, rest: string)
    requires rest == [] || !JsNumber.IsDigit(rest[0])
    requires n == 0 && rest != [] ==> rest[0] != 'x' && rest[0] != 'X'
    ensures PromptArity(Some(JsNumber.ToString(n) + rest)) == Some(n)
  {
    JsNumber.ParseIntLeadingNumber(n, rest);
    assert (JsNumber.ToString(n) + rest)[0] == JsNumber.ToString(n)[0];
  }

  /** A text that does not start with a digit, or a cancelled prompt, is rejected. */
  lemma PromptRejectsNonDigit(size: Option<string>)
    requires size.None? || size.value == [] || !JsNumber.IsDigit(size.value[0])
    ensures PromptArity(size) == None
  {
  }

  lemma PromptExamples()
    ensures PromptArity(Some("12x")) == Some(12)
    ensures PromptArity(Some("abc")) == None
    ensures PromptArity(Some("-1")) == None
    ensures PromptArity(Some("")) == None
    ensures PromptArity(None) == None
    ensures PromptArity(Some("0x1f")) == Some(31)
  {
    PromptReadsLeadingNumber(12, "x");
    assert JsNumber.ToString(12) == "12";
    assert JsNumber.LeadingHexDigits("1f") == "1f";
    assert JsNumber.HexValue("1f") == 31;
  }

  /**
   * The "Change size..." callback after the prompt answered `size`: a rejected
   * answer leaves the block and the event log as they were, an accepted one
   * resizes the block and fires exactly one change event.
   */
  method ChangeSize(block: ListBlock, size: Option<string>, log: EventLog)
    requires block.Valid()
    modifies block, log
    ensures block.Valid()
    ensures PromptArity(size).None? ==>
      block.inputs == old(block.inputs) && block.arity == old(block.arity) && log.fired == old(log.fired)
    ensures PromptArity(size).Some? ==>
      && block.arity == PromptArity(size).value
      && block.inputs == Resized(old(block.inputs), block.arity, block.blockType)
      && log.fired == old(log.fired)
         + [BlockChange(block.id, "mutation", None, Mutation(old(block.arity)), Mutation(block.arity))]
  {
    var arity := PromptArity(size);
    if arity.Some? {
      TriggerArity(block, arity.value, log);
    }
  }

  /**
   * Each block has its own `vrmath` record: resizing one new block leaves a
   * second one at the initial arity 2.
   */
  method SeparateExtraState() returns (first: nat, second: nat)
    ensures first == 5 && second == 2
  {
    var a := new ListBlock(1);
    var b := new ListBlock(2);
    var log := new EventLog();
    ChangeSize(a, Some("5"), log);
    first, second := a.arity, b.arity;
  }
}
