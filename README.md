# Rusty interpreter core, modelled in Dafny

This project models the core of the Rusty scripting language:

- the recursive-descent parser that turns a token stream into statements (`src/ast_parser.rs`);
- the tree-walking evaluator with its chain of environments (`src/interpreter.rs`);
- the JSON reader and writer of the standard library (`src/stdlib/json.rs`);
- the array and string builtins (`src/stdlib/array.rs`, `src/stdlib/string.rs`);
- the regular-expression wrappers (`src/stdlib/regex.rs`).

Each part takes the form of its source:

- The parser object, the JSON cursor, the environment and the interpreter object update their
  state in place. They are Dafny classes (`Parsing.Parser`, `JsonReading.JsonReader`,
  `Env.Environment`, `Interp.Interpreter`).
- Each of their methods is proved to compute exactly what a pure specification function returns.
  These functions are `Grammar.*`, `JsonSyntax.*`, `Env.Lookup`/`Define`/`Assign` and
  `Semantics.Eval`/`Exec`/`Interpret`.
- The properties the source promises are proved as lemmas about those functions:
  - the environment lookup and assignment rules;
  - operator typing;
  - short-circuiting;
  - block scoping;
  - `return` propagation;
  - the left-associativity of binary operators;
  - the 255-parameter cap;
  - the JSON round trip `parse(stringify(v)) == v`;
  - set/get and push/pop laws;
  - slices of concatenations.
- The builtins are functions from argument lists to `Result<Value, string>`, carrying the source's
  error messages. `join`, `as_string`, `process_pattern`, `regex_match_all` and `regex_capture`
  are loops in the source and are methods with loop invariants here.

Behaviour the model cannot see is passed in as a parameter:

- the evaluator's `Host` holds the native functions, the number printer and the map iteration order;
- the builtins take `f64::to_string` as a parameter `show`;
- the Unicode case mappings are parameters;
- the `regex` crate is a parameter `Engine`.

Numbers are exact reals. Strings are `seq<char>` (Unicode scalar values), with `Text.Utf8Len`
giving the UTF-8 byte length wherever the source calls `String::len`. `as usize` casts are
`ArrayLib.ToUsize`, which saturates at 2^64 - 1.

Where the code departs from what its own comments, messages or the standard it follows announce, the model follows the code:

- A newline after an expression does not end a statement, although the parser's comment and its
  message "Expect ';' or newline ..." (src/ast_parser.rs:96-98) say it does. `assignment` skips
  newlines after the expression, before it looks for `=`, so only `;` terminates `var`, `print`
  and expression statements. A `return` whose value is omitted can still end at a newline.
- The JSON reader accepts leading zeros (`007` is 7), which section 6 of RFC 8259 forbids, and a
  `+` inside a `\u` escape (`u32::from_str_radix` accepts it), which section 7 does not allow.
- It also ignores text after the first value when that text is separated from it by whitespace.
- `slice` is registered nowhere: neither the global functions nor the `Array` namespace name it,
  so no script can call it and only a Rust caller reaches it.

## Model

| member | source | states |
|---|---|---|
| Values.TruthyExactly | src/interpreter.rs:539-545 | `nil` and `false` are the only falsy values; 0, "" and [] are truthy |
| Values.ValuesEqualReflexive | src/interpreter.rs:7-47 | every value is equal to itself under the derived `PartialEq` that `==` uses |
| Values.ValuesEqualSymmetric | src/interpreter.rs:7-47 | that equality is symmetric, including element-wise on Arrays and key-wise on Objects and Namespaces |
| Values.FunctionsEqualByName | src/interpreter.rs:34-47 | functions are equal exactly when their names are; values of different kinds (0 and "0", nil and false) are never equal |
| Values.GetProperty | src/interpreter.rs:623-628 | a property is found exactly on an Object or Namespace that has the key, and is the stored value |
| Values.SetProperty | src/interpreter.rs:631-643 | setting succeeds exactly on Objects and Namespaces and updates that one key; otherwise the "Cannot set property" error |
| Values.GetAfterSet | src/interpreter.rs:623-643 | reading a property just set gives the value set; other keys are unchanged |
| Env.Define | src/interpreter.rs:104-106 | `define` writes the name into the innermost frame only; outer frames are unchanged |
| Env.LookupNone | src/interpreter.rs:108-116 | `get` fails exactly when no frame of the chain binds the name |
| Env.LookupFound | src/interpreter.rs:108-116 | `get` returns the binding of the innermost frame that has the name |
| Env.AssignNone | src/interpreter.rs:118-127 | `assign` fails exactly when no frame binds the name |
| Env.AssignFound | src/interpreter.rs:118-127 | `assign` overwrites the binding in the innermost frame that has the name and no other |
| Env.LookupAfterWrite | src/interpreter.rs:104-127 | after `define`, or a successful `assign`, `get` returns the value written |
| Env.ShadowingIsLocal | src/interpreter.rs:97-116 | a binding in a new enclosed frame shadows outer ones and leaves the outer frames as they were |
| Env.AssignKeepsShape | src/interpreter.rs:118-127 | `assign` never adds a name to any frame nor changes the number of frames |
| Env.Environment.constructor | src/interpreter.rs:97-102 | a new environment is one frame holding the globals |
| Env.Environment.DefineVar | src/interpreter.rs:104-106 | the in-place `define` leaves the frames `Env.Define` describes |
| Env.Environment.AssignVar | src/interpreter.rs:118-127 | returns true exactly when the name is bound; then the frames are `Env.Assign`'s, otherwise unchanged |
| Env.Environment.Enclose | src/interpreter.rs:180-182 | entering a block pushes an empty innermost frame |
| Env.Environment.Restore | src/interpreter.rs:186-194 | leaving a block drops the innermost frame and keeps the rest |
| Interp.Interpreter.constructor | src/interpreter.rs:135-147 | a fresh interpreter has one global frame and has printed nothing |
| Interp.Interpreter.Interpret | src/interpreter.rs:149-158 | running a program gives the outcome and state `Semantics.Interpret` defines |
| Interp.Interpreter.Execute | src/interpreter.rs:160-234 | executing a statement in place gives the flow and state `Semantics.Exec` defines |
| Interp.Interpreter.ExecuteBlock | src/interpreter.rs:180-196 | a block runs in a new frame which is dropped afterwards, on normal and on abrupt exit |
| Interp.Interpreter.ExecuteStatements | src/interpreter.rs:180-193 | statements run in order until the first that ends abruptly |
| Interp.Interpreter.ExecuteWhile | src/interpreter.rs:206-219 | the `while` loop computes `Semantics.Loop` |
| Interp.Interpreter.WhileStep | src/interpreter.rs:206-219 | one iteration either ends the loop with its result or leaves a state from which the rest of the loop is the same loop |
| Interp.Interpreter.Evaluate | src/interpreter.rs:236-537 | evaluating an expression in place gives the value and state `Semantics.Eval` defines |
| Interp.Interpreter.EvaluateCall | src/interpreter.rs:358-422 | callee, then arguments left to right, then the call, as `Semantics.Eval` defines |
| Interp.Interpreter.EvaluateMethod | src/interpreter.rs:451-528 | a method call looks the name up on an Object or Namespace and calls it |
| Interp.Interpreter.EvaluateList | src/interpreter.rs:360-363 | arguments are evaluated left to right and the first error stops the list |
| Interp.Interpreter.CallFunction | src/interpreter.rs:369-421 | calling a function value gives what `Semantics.CallValue` defines |
| Interp.Interpreter.CallUser | src/interpreter.rs:369-406 | a user function runs in a frame pushed on the caller's chain, which is popped afterwards |
| Interp.Interpreter.BindParameters | src/interpreter.rs:383-387 | the parameters are bound to the arguments in the new innermost frame |
| Semantics.Eval | src/interpreter.rs:236-537 | evaluation never changes which names a frame holds, and printing only appends |
| Semantics.EvalList | src/interpreter.rs:360-363 | a successful argument list has one value per argument after those already computed |
| Semantics.CallValue | src/interpreter.rs:358-422 | a call leaves the caller's frames with the same names |
| Semantics.Exec | src/interpreter.rs:160-234 | a statement can only add names to existing frames and append printed lines |
| Semantics.Loop | src/interpreter.rs:206-219 | a loop can only add names and append printed lines |
| Semantics.ExecSeq | src/interpreter.rs:180-193 | the same holds for a statement sequence |
| Semantics.Interpret | src/interpreter.rs:149-158 | the same holds for a whole program |
| SemanticsFacts.PlusOperands | src/interpreter.rs:288-294 | `+` succeeds exactly on two numbers (their sum) or two strings (their concatenation), else "Operands must be two numbers or two strings." |
| SemanticsFacts.ArithmeticOperands | src/interpreter.rs:264-318 | `- * > >= < <=` need two numbers; `/` also needs a non-zero divisor and reports "Division by zero." |
| SemanticsFacts.EqualityTotal | src/interpreter.rs:319-320 | `==` and `!=` are defined on every pair of values, are the derived equality and its negation, and `x == x` holds |
| SemanticsFacts.ShortCircuit | src/interpreter.rs:339-356 | `or` stops at a truthy left operand and `and` at a falsy one, without evaluating the right operand |
| SemanticsFacts.AssignUndefined | src/interpreter.rs:331-337 | assigning an unbound name is "Undefined variable" after the value was evaluated |
| SemanticsFacts.BlockScoping | src/interpreter.rs:180-196 | after a block the frames hold the same names as before; a name undefined before is still undefined |
| SemanticsFacts.ExecSeqAppend | src/interpreter.rs:180-193 | running `s1 + s2` is running `s1`, then `s2` unless `s1` ended abruptly |
| SemanticsFacts.ReturnPropagates | src/interpreter.rs:180-205 | a `return` inside a block or an `if` branch ends the enclosing statements with the same signal |
| SemanticsFacts.LoopPropagates | src/interpreter.rs:206-219 | a body that ends abruptly ends the `while` loop with the same result |
| SemanticsFacts.DynamicScope | src/interpreter.rs:378-392 | in the frames a call runs its body in, a name that is not a parameter resolves as in the caller's frames, and a parameter resolves to its bound argument |
| SemanticsFacts.CallerVariable | src/interpreter.rs:378-406 | a function whose body is `return x` returns the caller's `x` and leaves the caller's frames as they were |
| SemanticsFacts.BindParams | src/interpreter.rs:383-387 | the call frame binds exactly the parameter names, each to its argument when names are distinct |
| SemanticsFacts.InterpretRunsSequence | src/interpreter.rs:149-158 | `interpret` runs the statements in order and reports the first error, or a top-level return as an error |
| SemanticsFacts.TopLevelReturn | src/interpreter.rs:149-158 | a `return` outside any function ends the program with "Return statement outside of function" |
| Render.OrderedKeys | src/interpreter.rs:585-611 | an Object's or Namespace's keys are printed each exactly once, in the `HashMap`'s iteration order: no key is missing or repeated, and there are as many as the map has |
| Render.DistinctCount | src/interpreter.rs:585-611 | a key listing without repeats is as long as the set of keys it lists, so printing visits `len()` keys |
| Render.EntryStep | src/interpreter.rs:585-595 | each printed Object entry is `key: value`, separated by ", " |
| Render.StringifyValue | src/interpreter.rs:559-613 | the printer's text for every kind of value is `Render.Stringify` |
| Render.StringifyArray | src/interpreter.rs:574-584 | an Array is printed as its elements between brackets, separated by ", " |
| Render.StringifyObject | src/interpreter.rs:585-595 | an Object is printed as its entries between braces |
| Render.StringifyNamespace | src/interpreter.rs:596-611 | a Namespace is printed as its name and its keys, without values |
| Grammar.SkipNewlines | src/ast_parser.rs:65-69 | skipping newlines stops at the first token that is not a newline, never past EOF |
| Grammar.Terminator | src/ast_parser.rs:97-99 | a statement terminator is exactly a `;` or a newline token, and is consumed |
| Grammar.Parse | src/ast_parser.rs:47-63 | parsing a well-formed token stream stops inside it |
| Grammar.ParseLoop | src/ast_parser.rs:53-61 | the declaration loop succeeds only at EOF, and the cursor never moves back |
| Grammar.Declaration | src/ast_parser.rs:71-81 | a successful declaration consumes at least one token |
| Grammar.VarDeclaration | src/ast_parser.rs:83-102 | a `var` declaration yields a `Var` statement, and the token it ends on is `;` (a newline has been skipped before the check) |
| Grammar.VarInitializer | src/ast_parser.rs:86-92 | the optional `= expression` part, with the same ending |
| Grammar.VarEnd | src/ast_parser.rs:94-101 | the terminator check after the declaration never moves the cursor back |
| Grammar.FunctionDeclaration | src/ast_parser.rs:104-126 | a successful function declaration consumes tokens |
| Grammar.ParameterList | src/ast_parser.rs:106-119 | the parameter list never moves the cursor back |
| Grammar.Parameters | src/ast_parser.rs:108-118 | the parameter loop never moves the cursor back |
| Grammar.FunctionBody | src/ast_parser.rs:121-125 | the `{` and body after the parameters consume tokens |
| Grammar.Statement | src/ast_parser.rs:128-147 | a statement consumes tokens; an `if` without `else` is not followed by `else` |
| Grammar.BlockStatement | src/ast_parser.rs:143-145 | `{` starts a `Block` statement |
| Grammar.PrintStatement | src/ast_parser.rs:149-155 | `print` yields a `Print` statement ending on `;` |
| Grammar.IfStatement | src/ast_parser.rs:157-170 | `if` yields an `If`; an `else` binds to the nearest `if` |
| Grammar.IfBranches | src/ast_parser.rs:159-169 | the condition and branches of an `if` |
| Grammar.ElseBranch | src/ast_parser.rs:163-169 | an `else` branch is present exactly when the next token is `else` |
| Grammar.WhileStatement | src/ast_parser.rs:172-178 | `while` yields a `While` statement |
| Grammar.WhileBody | src/ast_parser.rs:174-177 | the condition and body of a `while` |
| Grammar.ReturnStatement | src/ast_parser.rs:180-191 | `return` yields a `Return` ending on `;` or a newline |
| Grammar.ReturnEnd | src/ast_parser.rs:187-190 | the terminator of a `return` |
| Grammar.Block | src/ast_parser.rs:193-208 | a block that parses consumes tokens, and the last one it consumes is its closing `}` |
| Grammar.BlockLoop | src/ast_parser.rs:197-204 | the declaration loop of a block consumes tokens and ends by consuming `}` |
| Grammar.ExpressionStatement | src/ast_parser.rs:210-216 | an expression statement ends on `;` |
| Grammar.Expression | src/ast_parser.rs:218-221 | an expression consumes tokens and leaves no newline at the cursor |
| Grammar.Assignment | src/ast_parser.rs:223-239 | an assignment consumes tokens and leaves no newline at the cursor |
| Grammar.AssignValue | src/ast_parser.rs:227-236 | the right-hand side of `=` |
| Grammar.BinaryLevel | src/ast_parser.rs:241-284 | each binary level consumes tokens |
| Grammar.Operand | src/ast_parser.rs:241-284 | an operand of a binary level consumes tokens |
| Grammar.BinaryTail | src/ast_parser.rs:241-284 | the operator loop of a binary level never moves back |
| Grammar.Unary | src/ast_parser.rs:286-295 | a unary expression consumes tokens |
| Grammar.PrefixOperand | src/ast_parser.rs:289-293 | the operand of a prefix `!` or `-` |
| Grammar.CallExpr | src/ast_parser.rs:329-342 | a call expression consumes tokens |
| Grammar.CallTail | src/ast_parser.rs:332-339 | the loop of argument lists never moves back |
| Grammar.FinishCall | src/ast_parser.rs:344-365 | an argument list that parses ends by consuming `)` and yields a `Call` of the given callee |
| Grammar.Arguments | src/ast_parser.rs:349-360 | the argument loop keeps the arguments already read, in order, and adds at least one |
| Grammar.Argument | src/ast_parser.rs:351-353 | an argument leaves no newline at the cursor |
| Grammar.Primary | src/ast_parser.rs:297-327 | a primary expression consumes tokens |
| Grammar.Grouped | src/ast_parser.rs:318-324 | a parenthesised expression that parses ends by consuming `)` and yields a `Grouping` |
| GrammarFacts.CheckFacts | src/ast_parser.rs:385-393 | `check` is false at EOF, and any identifier matches any identifier kind |
| GrammarFacts.NoRightNesting | src/ast_parser.rs:241-284 | operators of one level are left-associative: the parser never builds `x op (y op z)` for operators of the same or a higher level |
| GrammarFacts.PrimaryShape | src/ast_parser.rs:297-327 | a primary expression contains no unbracketed binary operator |
| GrammarFacts.UnaryShape | src/ast_parser.rs:286-295 | nor does a unary expression |
| GrammarFacts.CallTailShape | src/ast_parser.rs:329-342 | nor does a call |
| GrammarFacts.BinaryLevelShape | src/ast_parser.rs:241-284 | a level's result nests only operators of that level and tighter, each on the left |
| GrammarFacts.OperandShape | src/ast_parser.rs:241-284 | an operand nests only tighter operators |
| GrammarFacts.BinaryTailShape | src/ast_parser.rs:241-284 | the operator loop keeps that shape |
| GrammarFacts.NestedMonotone | src/ast_parser.rs:241-284 | a shape allowed at one level is allowed at every looser level |
| GrammarFacts.AssignmentShape | src/ast_parser.rs:223-239 | an assignment is a right-nested chain of `name =` over an equality expression |
| GrammarFacts.AssignmentTarget | src/ast_parser.rs:223-239 | the target of `=` is always a variable; any other target is "Invalid assignment target." |
| GrammarFacts.ParameterCap | src/ast_parser.rs:108-118 | a parameter list with 255 names already read fails with "Cannot have more than 255 parameters."; a successful list has at most 255 names |
| GrammarFacts.FunctionParameterCap | src/ast_parser.rs:104-126 | every parsed function declares at most 255 parameters |
| GrammarFacts.PrependTwice | src/ast_parser.rs:53-61 | adding statements in two steps is adding them at once |
| GrammarFacts.ParseLoopOrder | src/ast_parser.rs:47-63 | statements appear in the result in source order |
| Parsing.MatchPlain | src/ast_parser.rs:367-375 | `match_token` over plain kinds tests the current token's kind |
| Parsing.Parser.constructor | src/ast_parser.rs:40-45 | a new parser starts at the first token |
| Parsing.Parser.Advance | src/ast_parser.rs:395-400 | `advance` moves one token forward, except at EOF |
| Parsing.Parser.MatchToken | src/ast_parser.rs:367-375 | `match_token` advances exactly when one of the kinds is at the cursor |
| Parsing.Parser.MatchOne | src/ast_parser.rs:367-375 | the one-kind case of `match_token` |
| Parsing.Parser.Consume | src/ast_parser.rs:377-383 | `consume` returns the token and advances when its kind matches; otherwise the given error and no move |
| Parsing.Parser.SkipNewlines | src/ast_parser.rs:65-69 | the loop stops where `Grammar.SkipNewlines` says |
| Parsing.Parser.MatchTerminator | src/ast_parser.rs:97-99 | consumes a `;` or newline exactly when one is at the cursor |
| Parsing.Parser.Parse | src/ast_parser.rs:47-63 | the statement loop returns what `Grammar.ParseLoop` returns and stops where it says |
| Parsing.Parser.Declaration | src/ast_parser.rs:71-81 | returns `Grammar.Declaration`'s result and leaves the cursor at its position |
| Parsing.Parser.VarDeclaration | src/ast_parser.rs:83-102 | returns `Grammar.VarDeclaration`'s result and leaves the cursor at its position |
| Parsing.Parser.VarInitializer | src/ast_parser.rs:86-92 | returns `Grammar.VarInitializer`'s result and position |
| Parsing.Parser.VarEnd | src/ast_parser.rs:94-101 | returns `Grammar.VarEnd`'s result and position |
| Parsing.Parser.FunctionDeclaration | src/ast_parser.rs:104-126 | returns `Grammar.FunctionDeclaration`'s result and position |
| Parsing.Parser.ParameterList | src/ast_parser.rs:106-119 | the parameter loop returns `Grammar.ParameterList`'s result and position |
| Parsing.Parser.FunctionBody | src/ast_parser.rs:121-125 | returns `Grammar.FunctionBody`'s result and position |
| Parsing.Parser.Statement | src/ast_parser.rs:128-147 | returns `Grammar.Statement`'s result and position |
| Parsing.Parser.BlockStatement | src/ast_parser.rs:143-145 | returns `Grammar.BlockStatement`'s result and position |
| Parsing.Parser.PrintStatement | src/ast_parser.rs:149-155 | returns `Grammar.PrintStatement`'s result and position |
| Parsing.Parser.IfStatement | src/ast_parser.rs:157-170 | returns `Grammar.IfStatement`'s result and position |
| Parsing.Parser.IfBranches | src/ast_parser.rs:159-169 | returns `Grammar.IfBranches`'s result and position |
| Parsing.Parser.ElseBranch | src/ast_parser.rs:163-169 | returns `Grammar.ElseBranch`'s result and position |
| Parsing.Parser.WhileStatement | src/ast_parser.rs:172-178 | returns `Grammar.WhileStatement`'s result and position |
| Parsing.Parser.WhileBody | src/ast_parser.rs:174-177 | returns `Grammar.WhileBody`'s result and position |
| Parsing.Parser.ReturnStatement | src/ast_parser.rs:180-191 | returns `Grammar.ReturnStatement`'s result and position |
| Parsing.Parser.ReturnEnd | src/ast_parser.rs:187-190 | returns `Grammar.ReturnEnd`'s result and position |
| Parsing.Parser.Block | src/ast_parser.rs:193-208 | the block loop returns `Grammar.Block`'s result and position |
| Parsing.Parser.ExpressionStatement | src/ast_parser.rs:210-216 | returns `Grammar.ExpressionStatement`'s result and position |
| Parsing.Parser.Expression | src/ast_parser.rs:218-221 | returns `Grammar.Expression`'s result and position |
| Parsing.Parser.Assignment | src/ast_parser.rs:223-239 | returns `Grammar.Assignment`'s result and position |
| Parsing.Parser.AssignValue | src/ast_parser.rs:227-236 | returns `Grammar.AssignValue`'s result and position |
| Parsing.Parser.BinaryLevel | src/ast_parser.rs:241-284 | `equality`, `comparison`, `term` and `factor` return `Grammar.BinaryLevel`'s result and position |
| Parsing.Parser.Operand | src/ast_parser.rs:241-284 | returns `Grammar.Operand`'s result and position |
| Parsing.Parser.BinaryTail | src/ast_parser.rs:243-247 | the operator loop returns `Grammar.BinaryTail`'s result and position |
| Parsing.Parser.Unary | src/ast_parser.rs:286-295 | returns `Grammar.Unary`'s result and position |
| Parsing.Parser.PrefixOperand | src/ast_parser.rs:289-293 | returns `Grammar.PrefixOperand`'s result and position |
| Parsing.Parser.Call | src/ast_parser.rs:329-342 | the call loop returns `Grammar.CallExpr`'s result and position |
| Parsing.Parser.FinishCall | src/ast_parser.rs:344-365 | returns `Grammar.FinishCall`'s result and position |
| Parsing.Parser.Arguments | src/ast_parser.rs:349-360 | the argument loop returns `Grammar.Arguments`'s result and position |
| Parsing.Parser.NextArgument | src/ast_parser.rs:350-359 | one argument step either finishes the list or leaves a state from which the rest of the list reads the same |
| Parsing.Parser.Argument | src/ast_parser.rs:351-353 | returns `Grammar.Argument`'s result and position |
| Parsing.Parser.Primary | src/ast_parser.rs:297-327 | returns `Grammar.Primary`'s result and position |
| Parsing.Parser.Grouped | src/ast_parser.rs:318-324 | returns `Grammar.Grouped`'s result and position |
| JsonSyntax.SkipWs | src/stdlib/json.rs:54-60 | skipping whitespace leaves a suffix that starts with no whitespace |
| JsonSyntax.TrimEnd | src/stdlib/json.rs:22-24 | `trim` drops exactly the trailing whitespace |
| JsonSyntax.ValueOf | src/stdlib/json.rs:31-43 | reading a value dispatches on its first character and leaves a suffix of the input |
| JsonSyntax.ObjectOf | src/stdlib/json.rs:46-141 | reading an object leaves a suffix of the input |
| JsonSyntax.MembersOf | src/stdlib/json.rs:69-140 | the member loop leaves a suffix of the input |
| JsonSyntax.ArrayOf | src/stdlib/json.rs:144-200 | reading an array leaves a suffix of the input |
| JsonSyntax.ElementsOf | src/stdlib/json.rs:166-199 | the element loop leaves a suffix of the input |
| JsonSyntax.StringOf | src/stdlib/json.rs:203-253 | reading a string leaves a suffix of the input |
| JsonSyntax.CharsOf | src/stdlib/json.rs:209-252 | the character loop leaves a suffix of the input |
| JsonSyntax.HexDigits | src/stdlib/json.rs:223-243 | four hex digits give a number below 16^4 |
| JsonSyntax.LiteralOf | src/stdlib/json.rs:256-293 | `true`, `false` and `null` are read letter by letter and leave a suffix |
| JsonSyntax.DigitRun | src/stdlib/json.rs:305-311 | the digit run is the longest prefix of digits |
| JsonSyntax.NumberOf | src/stdlib/json.rs:296-365 | reading a number leaves a suffix of the input |
| JsonSyntax.DigitsFrom | src/stdlib/json.rs:305-311 | the digits read are appended to the number text and removed from the input |
| JsonSyntax.FractionFrom | src/stdlib/json.rs:314-330 | a fraction part is appended to the number text and removed from the input |
| JsonSyntax.ExponentFrom | src/stdlib/json.rs:332-357 | an exponent part is appended to the number text and removed from the input |
| JsonSyntax.ElementJsons | src/stdlib/json.rs:433-439 | each written element is the JSON text of that element |
| JsonSyntax.MemberJsons | src/stdlib/json.rs:410-425 | one member text per pair |
| JsonSyntax.Hex4 | src/stdlib/json.rs:385-388 | a control character is written as four hex digits |
| JsonReading.ParseText | src/stdlib/json.rs:22-28 | `parse_json_text` returns `JsonSyntax.JsonText` of the text |
| JsonReading.JsonParse | src/stdlib/json.rs:6-13 | `json_parse` reads a String argument and rejects anything else with "json_parse: argument must be a string" |
| JsonReading.JsonReader.constructor | src/stdlib/json.rs:22-24 | the cursor starts at the first character |
| JsonReading.JsonReader.Next | src/stdlib/json.rs:209-210 | `next` returns the next character and moves past it |
| JsonReading.JsonReader.SkipWhitespace | src/stdlib/json.rs:54-60 | the whitespace loop leaves the cursor where `SkipWs` says |
| JsonReading.JsonReader.ParseValue | src/stdlib/json.rs:31-43 | returns `JsonSyntax.ValueOf`'s value and leaves the cursor at its rest |
| JsonReading.JsonReader.ParseObject | src/stdlib/json.rs:46-141 | returns `JsonSyntax.ObjectOf`'s value and rest |
| JsonReading.JsonReader.NextMember | src/stdlib/json.rs:69-140 | one member step either ends the object as `MembersOf` does or continues it from a shorter input |
| JsonReading.JsonReader.ParseArray | src/stdlib/json.rs:144-200 | returns `JsonSyntax.ArrayOf`'s value and rest |
| JsonReading.JsonReader.NextElement | src/stdlib/json.rs:166-199 | one element step either ends the array as `ElementsOf` does or continues it from a shorter input |
| JsonReading.JsonReader.ParseString | src/stdlib/json.rs:203-253 | returns `JsonSyntax.StringOf`'s value and rest |
| JsonReading.JsonReader.NextChar | src/stdlib/json.rs:210-250 | one character step either ends the string as `CharsOf` does or continues it from a shorter input |
| JsonReading.JsonReader.ReadCode | src/stdlib/json.rs:225-232 | a `\u` escape takes the next four characters, or fails when fewer are left |
| JsonReading.JsonReader.ParseLiteral | src/stdlib/json.rs:256-293 | returns `JsonSyntax.LiteralOf`'s value and rest |
| JsonReading.JsonReader.TakeDigits | src/stdlib/json.rs:305-311 | the digit loop takes what `DigitsFrom` takes |
| JsonReading.JsonReader.ParseNumber | src/stdlib/json.rs:296-365 | returns `JsonSyntax.NumberOf`'s value and rest |
| JsonReading.JsonReader.ReadFraction | src/stdlib/json.rs:314-330 | the fraction is valid exactly when `FractionFrom` accepts it, and takes what it takes |
| JsonReading.JsonReader.ReadExponent | src/stdlib/json.rs:332-357 | the exponent is valid exactly when `ExponentFrom` accepts it, and takes what it takes |
| JsonWriting.JsonStringify | src/stdlib/json.rs:16-19 | `json_stringify` returns the JSON text of its argument |
| JsonWriting.ValueToJsonString | src/stdlib/json.rs:368-454 | the writer produces `JsonSyntax.ToJson` |
| JsonWriting.QuoteString | src/stdlib/json.rs:371-395 | a string is written with every character escaped, between quotes |
| JsonWriting.WriteArray | src/stdlib/json.rs:429-442 | an Array that is not a pair list is written as `[` elements `]` separated by ", " |
| JsonWriting.WriteObject | src/stdlib/json.rs:398-428 | a non-empty list of `[String, value]` pairs is written as a JSON object |
| JsonWriting.WriteMember | src/stdlib/json.rs:415-424 | a member is the quoted key, ": " and the value |
| JsonFacts.HexCharDigit | src/stdlib/json.rs:385-388 | each hex digit written is read back as its value |
| JsonFacts.Hex4Value | src/stdlib/json.rs:385-388 | four written hex digits are read back as the code written |
| JsonFacts.FourDigits | src/stdlib/json.rs:223-243 | a four-digit hex code is read digit by digit |
| JsonFacts.Hex4Digits | src/stdlib/json.rs:223-243 | the reader accepts the four digits the writer writes |
| JsonFacts.EscapeRead | src/stdlib/json.rs:212-245 | the reader decodes each escape the writer produces back to the character |
| JsonFacts.EscapedRead | src/stdlib/json.rs:209-252 | an escaped text is decoded back to the text, for any rest of the input |
| JsonFacts.QuotedRead | src/stdlib/json.rs:203-253 | a quoted escaped text reads back to the text and leaves the rest |
| JsonFacts.StringRoundTrip | src/stdlib/json.rs:203-253 | reading the written form of any string gives the string back |
| JsonFacts.EscapedPlain | src/stdlib/json.rs:371-395 | characters that need no escape are written as they are |
| JsonFacts.SkipBlank | src/stdlib/json.rs:54-60 | whitespace skipping stops at the first non-whitespace character |
| JsonFacts.ValueRoundTrip | src/stdlib/json.rs:31-43 | reading the written form of any readable value gives the value and leaves the rest of the input |
| JsonFacts.NumberRead | src/stdlib/json.rs:296-365 | a number written in a form the reader takes back is read back |
| JsonFacts.WordRead | src/stdlib/json.rs:256-293 | `true`, `false` and `null` are read back as written |
| JsonFacts.ArrayRoundTrip | src/stdlib/json.rs:144-200 | a written Array that is not a pair list is read back as itself |
| JsonFacts.ObjectRoundTrip | src/stdlib/json.rs:46-141 | a written pair list is read back as the same list of `[key, value]` pairs |
| JsonFacts.ElementsRoundTrip | src/stdlib/json.rs:166-199 | the written elements are read back in order |
| JsonFacts.MembersRoundTrip | src/stdlib/json.rs:69-140 | the written members are read back in order |
| JsonFacts.JsonTextRoundTrip | src/stdlib/json.rs:6-28 | `json_parse(json_stringify(v))` is `v` for every value whose numbers print back exactly |
| JsonFacts.TrailingTextIgnored | src/stdlib/json.rs:22-28 | text after the value, separated by whitespace, is ignored |
| JsonFacts.MissingComma | src/stdlib/json.rs:180-198 | anything but `,` or `]` after an element is "Expected ',' or ']' in JSON array" |
| JsonFacts.KeyMustBeString | src/stdlib/json.rs:69-139 | an object member that does not start with `"` is "Expected string key in JSON object" |
| JsonFacts.ObjectForm | src/stdlib/json.rs:398-442 | an Array is written as an object exactly when it is a non-empty list of `[String, value]` pairs |
| JsonFacts.FunctionReadsAsNil | src/stdlib/json.rs:445-452 | a function is written as `null` and so read back as `nil` |
| JsonFacts.UnknownEscape | src/stdlib/json.rs:245 | any other escape letter is "Invalid escape sequence in JSON string" |
| JsonFacts.SurrogateEscape | src/stdlib/json.rs:235-240 | a `\u` escape naming a surrogate is "Invalid Unicode code point in JSON string" |
| JsonFacts.Unterminated | src/stdlib/json.rs:209-252 | a string without its closing quote is "Unterminated JSON string" |
| JsonFacts.PlusInUnicodeEscape | src/stdlib/json.rs:235 | `\u+041` is accepted as `A`, since `from_str_radix` takes a leading `+` |
| JsonFacts.WholeNumbersShownBack | src/stdlib/json.rs:370 | a whole number written by its digits is read back exactly |
| JsonFacts.FractionNeedsDigit | src/stdlib/json.rs:314-330 | a `.` must be followed by a digit |
| JsonFacts.ExponentNeedsDigit | src/stdlib/json.rs:332-357 | an exponent needs a digit after its optional sign |
| JsonFacts.LoneMinus | src/stdlib/json.rs:296-365 | a `-` without digits is "Invalid JSON number: -" |
| JsonFacts.ParseFortyTwo | src/stdlib/json.rs:460-476 | "42" is read as 42 |
| JsonFacts.ParseLeadingZeros | src/stdlib/json.rs:305-311 | "007" is read as 7 |
| JsonFacts.ParseHello | src/stdlib/json.rs:460-476 | the quoted text "hello" is read as the string hello |
| JsonFacts.ParseTrue | src/stdlib/json.rs:460-476 | "true" is read as true |
| JsonFacts.ParseCutOffLiteral | src/stdlib/json.rs:283-293 | "nul" is "Invalid JSON literal" |
| Text.NatToString | src/stdlib/array.rs:54 | a count is printed as decimal digits |
| Text.Utf8Len | src/stdlib/array.rs:59 | the byte length of a string is at least its character count |
| Text.JoinLength | src/stdlib/array.rs:144-174 | `n` joined texts are their lengths plus `n - 1` separators |
| Text.TrimPointZero | src/interpreter.rs:561-568 | a trailing ".0" is removed and nothing else is |
| Text.AsciiLength | src/stdlib/array.rs:59 | on ASCII text the byte length is the character count |
| ArrayLib.ToUsize | src/stdlib/array.rs:50 | `as usize` is 0 at or below 0, the whole part in range, and saturates at 2^64 - 1 |
| ArrayLib.MakeArray | src/stdlib/array.rs:4-7 | `array` returns its arguments as an Array |
| ArrayLib.Length | src/stdlib/array.rs:10-16 | the element count of an Array, the byte length of a String, else an error |
| ArrayLib.Push | src/stdlib/array.rs:19-28 | a new Array with the item appended, the original unchanged; else "push: first argument must be an array" |
| ArrayLib.Pop | src/stdlib/array.rs:31-44 | the last element; the errors for an empty Array and a non-Array |
| ArrayLib.Get | src/stdlib/array.rs:47-71 | the element, or the one-character String, at an index below the count; otherwise the error messages |
| ArrayLib.GetAsWritten | src/stdlib/array.rs:57-65 | the code as written panics exactly when the index lies between the character count and the byte length |
| ArrayLib.Set | src/stdlib/array.rs:74-112 | a copy with one element, or one character, replaced; the errors otherwise |
| ArrayLib.OneByte | src/stdlib/array.rs:93-96 | a replacement of byte length 1 is one character |
| ArrayLib.SetAsWritten | src/stdlib/array.rs:86-100 | the code as written panics exactly when the index lies between the character count and the byte length |
| ArrayLib.Concat | src/stdlib/array.rs:131-141 | the first Array followed by the second; errors name the argument that is not an Array |
| ArrayLib.ElementTexts | src/stdlib/array.rs:151-167 | each element is written as `join` writes it |
| ArrayLib.ArrayJoin | src/stdlib/array.rs:144-174 | the element texts joined by the separator; errors for a non-String separator and a non-Array |
| ArrayLib.Slice | src/stdlib/array.rs:178-221 | the elements, or characters, from `start` for `length` (clamped to the end); the argument errors |
| ArrayLib.SliceAsWritten | src/stdlib/array.rs:192-218 | on an Array the code as written panics only when `start + length` overflows a `usize` |
| ArrayFacts.PushThenPop | src/stdlib/array.rs:19-44 | popping right after a push gives back the item pushed |
| ArrayFacts.PushLength | src/stdlib/array.rs:267-284 | a push makes the Array one longer |
| ArrayFacts.GetAfterSet | src/stdlib/array.rs:47-84 | `get` at the index just set gives the new value; other indices are unchanged |
| ArrayFacts.SetHello | src/stdlib/array.rs:322-355 | `set("hello", 1, "a")` is "hallo" |
| ArrayFacts.GetAfterSetString | src/stdlib/array.rs:57-106 | `get` after `set` on a String gives the replacement character |
| ArrayFacts.GetOfConcat | src/stdlib/array.rs:131-141 | indexing a concatenation reads the first Array below its length, then the second |
| ArrayFacts.SliceOfConcat | src/stdlib/array.rs:178-202 | slicing a concatenation where the first Array ends gives the second |
| ArrayFacts.SliceWhole | src/stdlib/array.rs:178-221 | a slice from 0 with no length is the whole Array or String |
| ArrayFacts.GetOfSlice | src/stdlib/array.rs:178-202 | element `i` of a slice from `start` is element `start + i` |
| ArrayFacts.SliceStartTooFar | src/stdlib/array.rs:193-197 | a start past the end is an error naming the index and the length |
| ArrayFacts.SliceExamples | src/stdlib/array.rs:357-393 | `slice([1, 2, 3, 4], 1, 2)` is [2, 3] and `slice("hello", 1, 3)` is "ell" |
| ArrayFacts.JoinStrings | src/stdlib/array.rs:151-154 | Strings are joined verbatim |
| ArrayFacts.JoinSeparatorCount | src/stdlib/array.rs:144-174 | `n` elements are joined with exactly `n - 1` separators |
| ArrayFacts.JoinSingle | src/stdlib/array.rs:147-152 | one element is written alone, with no separator |
| ArrayFacts.JoinExample | src/stdlib/array.rs:144-174 | `join(["a", nil, true], "-")` is "a-nil-true" |
| ArrayFacts.EAcuteWidth | src/stdlib/array.rs:59 | "é" is one character of two bytes |
| ArrayFacts.GetPastLastCharacter | src/stdlib/array.rs:57-65 | `get("é", 1)` panics as written; the model reports it out of bounds |
| ArrayFacts.SetPastLastCharacter | src/stdlib/array.rs:86-100 | `set("é", 1, "a")` panics as written; the model reports it out of bounds |
| ArrayFacts.SetRefusesMultibyteReplacement | src/stdlib/array.rs:93-96 | `set("a", 0, "é")` is refused as written; the model accepts the single character |
| ArrayFacts.SlicePastLastCharacter | src/stdlib/array.rs:205-216 | `slice("é", 2)` panics as written; the model reports the start out of bounds |
| ArrayFacts.SliceLengthOverflow | src/stdlib/array.rs:199-202 | `slice([1], 1, 1e20)` panics as written; the model gives the empty slice |
| ArrayFacts.GetAgreesOnAscii | src/stdlib/array.rs:47-71 | on ASCII text the code as written and the model agree |
| ArrayFacts.SetAgreesOnAscii | src/stdlib/array.rs:74-112 | on ASCII text the code as written and the model agree |
| ArrayFacts.SliceAgreesOnAscii | src/stdlib/array.rs:178-221 | without overflow and on ASCII text the code as written and the model agree |
| StringLib.Len | src/stdlib/string.rs:4-12 | the byte length of a String, the count of an Array, 0 for an Object or Namespace, else an error |
| StringLib.LenAgreesWithLength | src/stdlib/string.rs:4-12 | `len` and `length` agree on Strings and Arrays; only `len` accepts Objects and Namespaces |
| StringLib.Upper | src/stdlib/string.rs:15-26 | exactly one String argument, mapped to upper case; the count, Object, Namespace and type errors |
| StringLib.Lower | src/stdlib/string.rs:29-40 | exactly one String argument, mapped to lower case; the count, Object, Namespace and type errors |
| StringLib.CaseMappings | src/stdlib/string.rs:15-40 | on ASCII, upper case is idempotent and lowering an upper-cased text is lowering the text |
| StringLib.HelloCases | src/stdlib/string.rs:106-122 | `upper("Hello")` is "HELLO" and `lower("Hello")` is "hello" |
| StringLib.NestedTexts | src/stdlib/string.rs:63-85 | each element is written in its short nested form |
| StringLib.AsString | src/stdlib/string.rs:43-89 | exactly one argument, written as text; an Array as its elements in short form, between brackets |
| StringLib.ShownScalars | src/stdlib/string.rs:43-89 | Strings are returned as they are; nil, Booleans, Objects and Namespaces are written by name |
| StringLib.ShownArrayIsJoin | src/stdlib/string.rs:63-85 | on Strings, Booleans and nil, `as_string` of an Array is `join` with ", " between brackets |
| StringLib.NestedInShort | src/stdlib/string.rs:63-85 | nested collections are not expanded; with `f64::to_string` printing 1.0 as "1", `[1]` is written "[1]" |
| StringLib.NumberShownAlike | src/stdlib/string.rs:50-58 | a number printed without a trailing ".0" is written alike on its own and as an Array element (string.rs:73) |
| RegexLib.ProcessPattern | src/stdlib/regex.rs:7-50 | the pattern comes back unchanged, on every path through the escape handling |
| RegexLib.StripPrefix | src/stdlib/regex.rs:108 | the marker is removed exactly when present |
| RegexLib.GetProcessedPattern | src/stdlib/regex.rs:101-115 | a regex object yields its stored pattern; anything else is "Expected a regex object" |
| RegexLib.CompiledRegex | src/stdlib/regex.rs:118-125 | a regex object compiles exactly when its stored pattern does |
| RegexLib.EncodedRoundTrip | src/stdlib/regex.rs:59-115 | what `regex_new` builds is a regex object that gives back its pattern |
| RegexLib.RegexNew | src/stdlib/regex.rs:59-84 | one String that compiles gives a regex object for it; the count, type and compile errors otherwise |
| RegexLib.RegexTest | src/stdlib/regex.rs:135-152 | whether the text matches; the argument errors |
| RegexLib.RegexMatchAll | src/stdlib/regex.rs:162-185 | every match, in order, as Strings |
| RegexLib.RegexReplaceAll | src/stdlib/regex.rs:196-220 | the text with every match replaced |
| RegexLib.RegexSplit | src/stdlib/regex.rs:230-253 | the pieces between matches, in order |
| RegexLib.RegexCapture | src/stdlib/regex.rs:263-303 | nil with no match; otherwise every group in order, nil for a group that did not take part |
| RegexLib.RegexIsValid | src/stdlib/regex.rs:312-327 | whether one String argument compiles; the count and type errors |
| RegexLib.RegexEscape | src/stdlib/regex.rs:336-347 | the escaped String; the count and type errors |
| RegexLib.NotRegexes | src/stdlib/regex.rs:87-98 | Strings, Numbers, nil and other Arrays are not regex objects |
| RegexLib.TestEncoded | src/stdlib/regex.rs:135-152 | testing with a regex object made from a pattern is matching that pattern |
| RegexLib.ChecksBeforeEngine | src/stdlib/regex.rs:135-253 | bad arguments are rejected before the pattern is compiled, whatever the engine |
| RegexLib.ForgedRegex | src/stdlib/regex.rs:118-125 | a hand-built regex object whose pattern does not compile is "Failed to recreate regex" |

## Left out

- The lexer: tokens are the parser's input datatype; src/lexer.rs is not part of this model.
- Output: `print` appends the rendered text to an output sequence instead of writing to stdout; the REPL and example drivers are not modelled.
- Termination: `while` loops and user calls run on a fuel bound, and running out of fuel is a distinct signal that the source does not have, because a program may diverge.
- Floating point: Numbers are exact reals, so `f64` rounding, overflow to infinity and NaN are not modelled; `f64::to_string` (with `stringify`'s ".0" stripping) and `parse::<f64>` are parameters.
- Map iteration order: rendering Objects and Namespaces follows `HashMap` order, which the `Printer` parameter supplies; the model fixes only that every key is listed exactly once, not which order.
- Unicode case mapping: `upper` and `lower` take the mapping as a parameter; only an ASCII reference mapping is defined and proved about.
- The regex engine: matching, `replace_all`, `split`, `captures`, `escape` and the validity of a pattern are the fields of the `Engine` parameter.
- JSON `\u` surrogate pairs: each `\uXXXX` decodes to one code unit taken as a `char`, so a pair is not combined into one character.
- `usize` is taken to be 64 bits wide (`UsizeMax`); conversions from Number saturate at 0 and `UsizeMax` as Rust's `as` does.
- The parser never builds `Logical`, `Get`, `Method` or `Array` expressions; the evaluator models them because its datatype has them.
- `Interpreter::is_equal` is never called; `==` and `!=` use the derived `PartialEq`, which is what `Values.ValuesEqual` models.
- `index` and `index_set` delegate to `get` and `set` and are not modelled separately.
- The registration of the standard library in src/stdlib/mod.rs, and src/stdlib.rs, math.rs, time.rs and file.rs: randomness, clocks and the filesystem. Only the arity facts the evaluator needs are kept (a native function of arity 0 takes any number of arguments).
- The "Invalid regex object" branch of `get_processed_pattern` is unreachable after `is_regex` succeeds, so the model has no such case.
- ArrayLib.ArrayJoin: requires that no element is an Object or Namespace, because the source's match has no arm for them.
- JsonWriting.ValueToJsonString: requires a serialisable value (no Object or Namespace inside), because the source's match has no arm for them.
- JsonWriting.JsonStringify: requires a serialisable argument, for the same reason.
- ArrayLib.SliceAsWritten: states exactly when an Array slice panics, but for a String only that a panic needs a Number start; the String cases are exhibited by ArrayFacts.SlicePastLastCharacter.

## Findings

| source | as written | input that shows it | evidently intended | confidence | as-written member | corrected member |
|---|---|---|---|---|---|---|
| src/stdlib/array.rs:57-65 | `get` on a String checks the index against the byte length, then takes the character at that index | `get("é", 1)`: index 1 passes the check, there is no second character, and `unwrap` panics | an out-of-bounds error, counting characters | not executed | ArrayFacts.GetPastLastCharacter | ArrayLib.Get |
| src/stdlib/array.rs:86-100 | `set` on a String checks the index against the byte length, then indexes the character vector | `set("é", 1, "a")`: index 1 passes the check and `chars[1]` panics | an out-of-bounds error, counting characters | not executed | ArrayFacts.SetPastLastCharacter | ArrayLib.Set |
| src/stdlib/array.rs:93-96 | the replacement must be one byte long | `set("a", 0, "é")` is refused although "é" is one character | "é" replaces the character, giving "é" | not executed | ArrayFacts.SetRefusesMultibyteReplacement | ArrayLib.Set |
| src/stdlib/array.rs:205-216 | `slice` on a String checks the start against the byte length, then slices the character vector | `slice("é", 2)`: start 2 passes the check and lies past the only character, so the slice panics; `slice` is registered nowhere, so only a Rust caller reaches this | an out-of-bounds error, counting characters | not executed | ArrayFacts.SlicePastLastCharacter | ArrayLib.Slice |
| src/stdlib/array.rs:199-202 | the end of an Array slice is `start + length` in `usize` | `slice([1], 1, 1e20)`: the length saturates to the largest `usize` and the sum overflows; only a Rust caller reaches this, as `slice` is registered nowhere | the end clamped to the length, giving `[]` | not executed | ArrayFacts.SliceLengthOverflow | ArrayLib.Slice |
