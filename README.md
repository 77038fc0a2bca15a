# VRMath block generator and list-arity mutator

This project models the core of the VRMath block editor. VRMath is a Blockly
workspace whose blocks (integer, real and string literals, a variadic `list`,
and the `print`, `forward` and `backward` commands) are turned into Logo-like
program text by a code generator called `Blockly.VRMath`.

The model covers two parts.

- **The generator helpers** of `vrmath_generator.js`:
  - the precedence table (`ORDER_*`) and its empty override list;
  - `quote_`, which escapes a string literal and picks its delimiter;
  - `scrubNakedValue`;
  - `scrub_`, which puts a block's comments and the comments of its value
    children in front of the block's code and then appends the code of the
    statements that follow it;
  - `finish`, whose return value is the generated code itself.
- **The block catalog and the `setArity` mutator** of `main.js`:
  - each block kind's configuration and its generator;
  - the per-block `vrmath` record that `initializeBlock` copies into each new
    block;
  - `mutationToDom`, which snapshots the arity, and `domToMutation`, which
    resizes a `list` block's input list to a requested arity;
  - `triggerArity`, which resizes a block and fires one change event;
  - the "Change size..." menu callback, which tests the prompt's answer
    against `^\d+` and hands it to `parseInt`.

How the modules fit together:

- Pure code is written as datatypes, functions and lemmas.
- A `list` block is a class (`Arity.ListBlock`) whose input list and arity the
  mutator methods update in place. Change events go into an `Arity.EventLog`
  object.
- The four loops of the modelled code are loops with invariants inside methods, each
  proved against a specification function:
  - the `list` generator's token loop (`Catalog.ListGenerator` against
    `Catalog.ListFragment`);
  - the comment loop of `scrub_` (`Scrub.Scrub` against `Scrub.Scrubbed`);
  - the trim loop and the append loop of `domToMutation`
    (`Arity.ListBlock.DomToMutation` against `Arity.Resized`).
- Blockly's own services are parameters:
  - `valueToCode` on the block being generated is `Catalog.Emitter`;
  - `Blockly.utils.wrap`, `prefixLines` and `allNestedComments` are
    `Scrub.Services`.
- Two readers are reference definitions that belong to this model and are not
  part of the source. They state what the generated text means:
  - `Quote.ReadLiteral` reads a quoted literal back;
  - `Catalog.ReadStatement` reads a command line back.

Three behaviours of the code are worth stating, because a reader might expect
otherwise. The model follows the code in each.

- A rejected size answer reports no error. It is ignored silently and nothing
  changes.
- The `string` block does not use `quote_`. It emits a Logo quoted word: `"`
  and then the field text, with no closing quote and no escaping.
- Slots added by a resize get no type check, because the `list`
  configuration declares none.

## Model

| member | source | states |
|---|---|---|
| Order.LevelsOrdered | vrmath_generator.js:49-70 | The twenty-one precedence levels are non-decreasing from ATOMIC (0) to NONE (99). Ties occur only where the source has them (COLLECTION = STRING_CONVERSION = 1, UNARY_SIGN = BITWISE_NOT = 4). |
| Order.NoOverrides | vrmath_generator.js:72-93 | The override list is empty, because every entry is commented out. So no pair of precedences is exempt from parenthesisation. |
| Quote.Escape | vrmath_generator.js:177-179 | No contract of its own. It is the three chained replacements; `Quote.EscapeIsPerCharacter` proves what they do. |
| Quote.Quote | vrmath_generator.js:175-191 | No contract of its own. It is `quote_`; its properties are proved in `Quote.QuoteShape`, `Quote.QuoteDelimiters`, `Quote.QuoteLength` and `Quote.QuoteRoundTrip`. |
| Quote.EscapeIsPerCharacter | vrmath_generator.js:176-179 | The three chained replacements escape each backslash, line break and `%` with one backslash and leave every other character alone, character by character. |
| Quote.ApostrophePass | vrmath_generator.js:187 | Escaping apostrophes after the first pass is the same as escaping apostrophes together with the other three characters in a single pass. |
| Quote.QuoteShape | vrmath_generator.js:175-191 | The result is one delimiter, the escaped text and the same delimiter. The delimiter is `"` exactly when the input has an apostrophe and no double quote. Apostrophes are escaped exactly when the input has both kinds of quote. |
| Quote.QuoteDelimiters | vrmath_generator.js:181-190 | The literal starts and ends with the same quote character, which is `'` or `"`, and it is `"` if and only if the input has `'` and no `"`. |
| Quote.QuoteLength | vrmath_generator.js:175-191 | The length is the input length, plus one for each backslash, line break and `%`, plus one per apostrophe when both quote kinds occur, plus two delimiters. |
| Quote.QuoteRoundTrip | vrmath_generator.js:175-191 | Reading a literal back from the quoted text, followed by any text, gives exactly the original string and leaves the following text unread. The escaping loses nothing, and the literal ends at its closing delimiter. |
| Quote.EscapeNotIdempotent | vrmath_generator.js:177-179 | Escaping twice doubles a backslash twice, so a `quote_` result must not be quoted again. |
| Scrub.ScrubNakedValue | vrmath_generator.js:165-167 | A naked value becomes its line followed by exactly one line break. |
| Scrub.Finish | vrmath_generator.js:138-157 | The completed program is the generated code unchanged. No variable definitions or imports are prepended. |
| Scrub.Scrub | vrmath_generator.js:202-234 | The loop over the input list builds the comment text. The result is those comments, then the block's own code, then the code of the following statements, which is the value of `Scrub.Scrubbed`. |
| Scrub.ScrubbedLayout | vrmath_generator.js:202-234 | The result is the comment text, then the block's code, then the next statements' code, with lengths adding up. A block plugged into a parent's output gets no comments. |
| Scrub.ChildCommentsAppend | vrmath_generator.js:219-229 | The comment text of two consecutive runs of inputs is the first run's text followed by the second's, so the inputs contribute in list order. |
| Scrub.OnlyValueInputsComment | vrmath_generator.js:217-229 | Statement and dummy inputs contribute no comments. The collected text equals the text collected from the value inputs alone, in their order. |
| Scrub.ChainAppend | vrmath_generator.js:231-233 | The code of a chain of statement blocks split into two parts is the code of the first part followed by the code of the second. |
| Scrub.ChainEndsWithLast | vrmath_generator.js:231-233 | A chain's code ends with the last block's comments and code. The last block has no next block, so nothing follows it. |
| Scrub.ChainWithoutComments | vrmath_generator.js:231-233 | When no block of a chain has comments, the chain's code is the concatenation of the blocks' own code in chain order. |
| Blocks.ElementNameInjective | main.js:92 | Distinct slot indices give distinct input names `element<i>`, because the decimal text of an index determines the index. |
| Blocks.ElementNameNotEmpty | main.js:220 | No slot name is `empty`, so the `getInput('empty')` test only finds the placeholder. |
| JsNumber.DecimalValueOfToString | main.js:92 | The decimal text JavaScript gives a non-negative integer denotes that integer. |
| JsNumber.ParseInt | main.js:203 | For a text starting with a digit, `parseInt` without a radix gives NaN exactly when the text is `0x` or `0X` with no hexadecimal digit after it. Without that prefix, the result is the value of the leading decimal digits. |
| JsNumber.ParseIntLeadingNumber | main.js:203 | `parseInt` of the decimal text of `n`, followed by text that does not start with a digit (and is not an `x` after a lone `0`), gives `n`. |
| JsNumber.ParseIntToString | main.js:203 | `parseInt` inverts the decimal text of a non-negative integer. |
| Catalog.Lookup | main.js:8-157 | No contract of its own. It is the `blockDefinitions` table without colours and alignment; `Catalog.InitialExtraState`, `Catalog.ListDefinitionMatchesArity` and `Catalog.GeneratorMatchesConfiguration` state its properties. |
| Catalog.InitialExtraState | main.js:86-88 | Only the `list` kind has a `vrmath` record, and its arity starts at 2. |
| Catalog.ListDefinitionMatchesArity | main.js:66-88 | The two declared value inputs of `list` are exactly the slots of its initial arity, named `element0` and `element1` as the mutator names them. |
| Catalog.IntegerGenerator | main.js:23-26 | The `integer` generator returns the field text verbatim at ATOMIC precedence. |
| Catalog.RealGenerator | main.js:41-44 | The `real` generator returns the field text verbatim at ATOMIC precedence. |
| Catalog.StringGenerator | main.js:59-62 | The `string` generator returns `"` followed by the field text verbatim, one character longer, at ATOMIC precedence. |
| Catalog.ListTokens | main.js:90-93 | The collected tokens are `list` followed by the code of slots `element0` to `element<arity-1>`, each asked for at COLLECTION precedence and in slot order. |
| Catalog.ListGenerator | main.js:89-95 | The push loop returns the tokens of `Catalog.ListTokens` joined by single spaces, at precedence NONE. |
| Catalog.ListOfNothing | main.js:89-95 | A list of arity 0 generates exactly `list`. |
| Catalog.ListTokensRecoverable | main.js:89-95 | When no slot's code contains a space, splitting the output at spaces gives back `list` and each slot's code, in order. The joined text loses nothing. |
| Catalog.PrintGenerator | main.js:113-116 | No contract of its own. It is the `print` generator; its properties are proved in `Catalog.PrintLine`. |
| Catalog.ForwardGenerator | main.js:133-136 | No contract of its own. It is the `forward` generator; its properties are proved in `Catalog.ForwardLine`. |
| Catalog.BackwardGenerator | main.js:152-155 | No contract of its own. It is the `backward` generator; its properties are proved in `Catalog.BackwardLine`. |
| Catalog.PrintLine | main.js:113-116 | `print` yields a line that reads back as keyword `print` and the code of its `value` child at FUNCTION_CALL precedence. The line is seven characters longer than that code. |
| Catalog.ForwardLine | main.js:133-136 | `forward` yields a line that reads back as keyword `forward` and the code of its `distance` child at precedence NONE. |
| Catalog.BackwardLine | main.js:152-155 | `backward` yields a line that reads back as keyword `backward` and the code of its `distance` child at precedence NONE. |
| Catalog.ReadStatementLine | main.js:113-155 | A keyword without spaces, one space, any argument and a line break read back as that keyword and that argument. |
| Catalog.Generate | main.js:170 | No contract of its own. It is the generator that `initializeBlock` registers for each kind; `Catalog.GeneratorMatchesConfiguration` states its property. |
| Catalog.GeneratorMatchesConfiguration | main.js:8-157 | A kind's generator returns a code/precedence pair exactly when its configuration declares an output. It returns a line ending in a line break exactly when the configuration declares previous and next connections. |
| Arity.ListBlock.constructor | main.js:159-169 | A new `list` block has type `list`, arity 2 from its own copy of the `vrmath` record, and inputs `element0` (labelled with the type) and `element1`. |
| Arity.ListBlock.MutationToDom | main.js:213-217 | No contract of its own. It is the arity snapshot; `Arity.TriggerArity` states which snapshots it takes and where they go. |
| Arity.ListBlock.DomToMutation | main.js:218-246 | The block stores the expected arity. The method's loops remove surplus slots from the highest index down, or append missing ones in increasing order, and the placeholder is swapped in or out at 0. Its `ensures` give the final state: the new input list is `Arity.Resized` of the old one, and the block stays well shaped with its arity equal to its actual number of slots. |
| Arity.ResizedByBranch | main.js:223-245 | `Arity.Resized` agrees with the branch `domToMutation` takes. Shrinking keeps the first `n` slots (plus the placeholder at 0), growing keeps the old slots and adds fresh ones, and an equal arity keeps the inputs. |
| Arity.RemoveHighest | main.js:231-235 | Removing the input named `element<i>` from slots 0..i removes exactly the last slot, with or without the placeholder after it. |
| Arity.ResizedShape | main.js:218-246 | After a resize to `n > 0` the inputs are exactly `element0` to `element<n-1>` with no placeholder. After a resize to 0 they are exactly the `empty` placeholder. In both cases the actual arity is `n`. |
| Arity.ResizeKeepsLowSlots | main.js:230-245 | Slots below both the old and the new arity keep their inputs and whatever is plugged into them. Added slots are new, with nothing plugged in. |
| Arity.ResizeToSameArity | main.js:218-246 | Resizing to the current arity changes nothing. |
| Arity.ResizeRoundTrip | main.js:218-246 | Resizing to `n` and back to the old arity `k` restores exactly `k` slots. Slots below both arities keep their children, and slots removed and restored come back empty. Growing and then shrinking back restores the inputs exactly. |
| Arity.TriggerArity | main.js:173-180 | The block gets the new arity and the resized inputs. The log gains exactly one `mutation` change event carrying the old and the new arity snapshots. |
| Arity.MatchesArityPattern | main.js:202 | No contract of its own. It is the `/^\d+/` test, with a cancelled prompt tested as the text `null`; `Arity.PromptAsWritten` and `Arity.PromptRejectsNonDigit` state its effect. |
| Arity.PromptAsWritten | main.js:200-204 | The answer is left unused exactly when it fails `^\d+`, which includes a cancelled prompt (null tests as `null`). NaN reaches `triggerArity` exactly when the answer is `0x`/`0X` with no hexadecimal digit after it. |
| Arity.BareHexPrefixGivesNaN | main.js:202-203 | `0x` and `0Xz` pass the digit test, yet `parseInt` turns them into NaN. |
| Arity.PromptArity | main.js:200-204 | The corrected callback yields an arity exactly when the code as written resizes to a number, and then it yields that same number. Every accepted answer gives a non-negative integer. |
| Arity.PromptReadsLeadingNumber | main.js:202-203 | The pattern has no end anchor, so a decimal number followed by non-digits (`12x`) is accepted as that number. |
| Arity.PromptRejectsNonDigit | main.js:201-202 | A cancelled prompt, an empty answer or one not starting with a digit (`-1`, `abc`) is rejected. |
| Arity.PromptExamples | main.js:201-204 | `12x` gives 12 and `0x1f` gives 31. `abc`, `-1`, the empty answer and a cancelled prompt give nothing. |
| Arity.ChangeSize | main.js:196-207 | The corrected callback, which uses `Arity.PromptArity` instead of the as-written `parseInt` path. A rejected answer leaves the block and the event log unchanged; this includes `0x`, for which the source instead calls `triggerArity` with NaN and fires an event. An accepted answer resizes the block to the parsed arity and fires exactly one change event. |
| Arity.SeparateExtraState | main.js:163-167 | An example: resizing one new block to 5 leaves a second new block at arity 2. Each block has its own `arity` field in this model, so the example illustrates the copy rather than proving anything about it. |
| Scenarios.QuietCommand | vrmath_generator.js:205-229 | A block without a comment whose only child has no nested comments gets no comment text. |
| Scenarios.PrintThenForward | vrmath_generator.js:231-233 | The chain `print "hello` then `forward 5`, without comments, generates the two lines `print "hello` and `forward 5`, each ending in a line break, in chain order. |
| Scenarios.ListOfThreeLiterals | main.js:89-95 | A list of arity 3 holding the integers 1, 2 and 3 generates `list 1 2 3` at precedence NONE. |

## Left out

- `Blockly.VRMath.init` and the variable-name database (`variableDB_`, `definitions_`, `functionNames_`, reserved words): they build state that `finish` discards unused. `finish`'s clean-up of that state is not modelled either; only its return value is.
- Blockly's own generator machinery: `valueToCode` with its parenthesisation by precedence, `blockToCode`, `workspaceToCode`, `Blockly.utils.wrap`, `prefixLines` and `allNestedComments` are outside these files. They are parameters of the model (`Catalog.Emitter`, `Scrub.Services`). A missing child is whatever the emitter returns for that slot.
- A chain of statement blocks is a sequence (`Scrub.Statement`) rather than linked blocks with `nextConnection`. The recursion of `blockToCode` through `scrub_` is `Scrub.ChainCode`.
- `Arity.ListBlock.DomToMutation`: the arity comes from the XML attribute as a string, and the source stores that string in `vrmath.arity`. The model stores a natural number and does not model the XML text, `document.createElement`, `Blockly.Xml.domToText` or `setAttribute`.
- `Arity.ListBlock.DomToMutation`: it requires a well-shaped input list (the placeholder alone, or slots `element0..element<k-1>`). `jsonInit` creates `element0` and `element1` from the declared inputs (main.js:75-84, 162), which is that shape, and after that only the mutator changes the inputs. So no other shape arises.
- `Arity.EventLog` records only the change event that `triggerArity` fires itself (main.js:178-179). Events that Blockly may fire inside `removeInput` when it unplugs a child are not recorded. So `Arity.TriggerArity`'s one logged event does not mean that only one event fires. Event grouping, undo/redo and the listeners are not modelled either.
- `removeInput` also detaches the child plugged into a removed slot, which stays in the workspace as a loose block. The model records only which inputs remain.
- The `Object.assign` copy of the `vrmath` record (main.js:166) is not modelled as a copy. Each block object has its own `arity` field, so the model cannot express two blocks sharing one record.
- `parseInt` returns a floating-point number. The model reads the leading digits as an unbounded integer, so it does not capture the loss of precision above 2^53 or `Infinity`. Resizing to such arities is not bounded either.
- The prompt dialog and the context-menu plumbing (`customContextMenu`, `Blockly.Extensions.register`/`registerMutator`, `mixin`) are left out. The answer is a parameter, with a cancelled prompt as `None`.
- `syncToArity` has an empty body and nothing calls it.
- `setup`, `Blockly.inject`, the toolbox, the generate button, `localStorage`, workspace XML loading and saving, and `console.log` are UI and I/O.
- Colours, field alignment and the reserved-word list are presentation and naming concerns and change no generated code.

## Findings

| source | as written | input that shows it | evidently intended | confidence | as-written member | corrected member |
|---|---|---|---|---|---|---|
| main.js:202-203 | Any answer starting with a decimal digit passes `^\d+` and goes to `parseInt` without a radix. `parseInt` treats a leading `0x`/`0X` as a hexadecimal prefix and returns NaN when no hexadecimal digit follows. NaN then becomes the block's arity: `domToMutation` changes no inputs, and the `list` generator's `i < arity` loop emits just `list`. | the answer `0x` (or `0Xz`) | only answers that denote a non-negative integer resize the block; all others leave it unchanged | not executed | Arity.PromptAsWritten, Arity.BareHexPrefixGivesNaN | Arity.PromptArity, used by Arity.ChangeSize |
