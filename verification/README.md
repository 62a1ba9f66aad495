# wjson in Dafny

A model of wjson, a small JSON-like library in C that works on wide
characters. A document is a chain of `struct wjson` nodes. Each node carries
a type tag, a key and one payload, which may be a string, a number, a
boolean, or the head of a nested object or list chain. The library has
three parts, and the model keeps all three:

- **Builder.** `wjson_initialize` and `wjson_initialize_list` create a
  container holding one EMPTY placeholder node. Every `wjson_append_*` and
  `wjson_list_append_*` walks to the tail. It fills the tail in place when
  that is still the placeholder, and otherwise links exactly one new node
  after it. The list family makes up the key from the number of hops to the
  old tail.
- **Reader.** This is a recursive-descent parser over a wide-character
  stream: `matchSequence`, the string and number lexers, and
  `wjson_parse_subobj`, `wjson_parse_key`, `wjson_parse_value` and
  `wjson_parse_list`.
- **Writer.** `wjson_print`, `wjson_print_list` and
  `wjson_print_indentation` write a tree with braces or brackets,
  `"key" : ` prefixes, commas between entries and tab indentation.

## Layout

| file | module | what it holds |
|---|---|---|
| `nodes.dfy` | `Nodes` | The node and its payload as datatypes, and the tag codes of `wjson.h`. |
| `builder.dfy` | `Builder` | The append step as pure functions (`Attach`, `KeyedAppend`, `ListAppend`) with their properties. Class `Container` holds the chain as a `seq<Node>` field, and its methods update that field in place. |
| `scanner.dfy` | `Scanner` | The stream is a `string` plus a position. It holds the keyword probe, the string and number lexers and the discard loops, each as a specification function and a loop method proved equal to it. |
| `grammar.dfy` | `Grammar` | The reader as mutually recursive functions of the text. Each production maps a chain and a position to a new chain and position, branch for branch as in the C routines. |
| `reader.dfy` | `Reader` | The reader as the C code runs it. Loops over the stream append to a `Container`, and each routine is proved to compute what its `Grammar` function says. |
| `writer.dfy` | `Writer` | The printer. `Render*` functions give the text; `Print*` methods build it with the C loops. |
| `roundtrip.dfy` | `RoundTrip` | Reading back what the printer writes. |
| `quirks.dfy` | `Quirks` | Worked inputs on which the reader differs from a JSON reader. |

The stream is a position in a `string`:

- `fgetwc` advances the position by one.
- At the end of the text, WEOF leaves the position where it is.
- `ungetwc` and `fseek` back to a saved position make the position smaller.

A NULL container handle, such as the one `wjson_parse_list` returns when the
first character is not `[`, is the empty chain.

## Behaviour of the code worth knowing

In each of these cases the code reads or builds differently from a standard JSON reader, and the model follows the code:

- **`matchSequence` consumes one extra character.** The loop reads a
  character before it checks whether the keyword has ended. So a successful
  match leaves the stream one character past the keyword, when the text
  goes on (`Scanner.Matches`).
- **Keywords are probed after the dispatch character.** The dispatch character
  is read before the keyword is probed, so the keyword is compared against
  the characters after it.
  - `[true]` reads as an empty list, while `[ true]` reads as `[true]`
    (`Quirks.KeywordNeedsLead`, `Quirks.KeywordAfterBlank`).
  - `"a":null` stores nothing, while `"a": null` stores the string "null"
    (`Quirks.NullNeedsLead`, `Quirks.NullAfterBlank`).
- **List keys do not match positions.** The list appends count hops to the
  old tail. The first append reuses the placeholder at 0 hops. So, if the
  key buffer receives the whole decimal text of the count (see "Left out"),
  the keys are "0", "0", "1", "2", … (`Builder.ListKeysLagPosition`).
- **The number lexer consumes its terminator.** The character after a
  number is read and not pushed back, so in `[1,2]` the closing `]` is
  consumed and the list ends at the end of the text (`Quirks.NumbersInList`).
- **Nested lists become objects.** A nested list inside a list is appended
  with `wjson_list_append_object`, so it is tagged OBJECT.
- **Keys and strings end at their first NUL.** The lexers collect NUL
  characters like any other, but every append stores a copy made with
  `wcsdup`, which stops at the first NUL. A member whose key text is `k`, NUL,
  `x` is stored under `k` (`Grammar.MemberKeyCut`, `Quirks.NulCutsKey`).

## Model

| member | source | states |
|---|---|---|
| Nodes.TypeOf | wjson.h:15-21 | The tag of a payload is at most 6, and it is 0 exactly for the EMPTY placeholder. |
| Nodes.TypeCodesDistinct | wjson.h:15-21 | Each of the codes 0..6 is the tag of the variant it selects, so the seven tags are distinct. |
| Builder.Attach | wjson.c:389-403 | An append never shortens the chain. |
| Builder.AppendedTail | wjson.c:389-403 | KeyedAppend and ListAppend (wjson.c:651-675) put the new node, with its key and value, at the tail and keep every node before the old tail. The list key is the decimal text of the hop count. |
| Builder.CText | wjson.c:406 | The copy `wcsdup` makes of a key or string is the longest NUL-free prefix of it, and it stops exactly at a NUL when it is shorter (also 415, 674, 684). |
| Builder.CTextWhole | wjson.c:406 | The copy is the whole text exactly when the text holds no NUL. |
| Builder.DecimalKeyWhole | wjson.c:671-674 | The decimal list key holds no NUL, so its copy is the whole key. |
| Builder.AttachShape | wjson.c:389-403 | After an append the new node is the tail and every node before the old tail is unchanged. An EMPTY tail is overwritten and the length stays the same. Any other tail is kept, and exactly one node is linked after it. |
| Builder.AttachKeepsChain | wjson.c:392-403 | Appending a keyed, non-EMPTY node keeps the chain shape: at least one node, and only a lone head may be the keyless placeholder. |
| Builder.DecimalString | wjson.c:671-674 | The `%d` text of a hop count is a non-empty run of digits with no leading zero. |
| Builder.DecimalRoundTrip | wjson.c:671-674 | Reading the decimal key back gives the hop count it was made from. |
| Builder.DecimalStringInjective | wjson.c:671-674 | Two hop counts give the same key exactly when they are equal. |
| Builder.ListKeysLagPosition | wjson.c:648-675 | Building a list by appends keeps the values in order. Entry i gets the key of ListKeyAt(i): "0", "0", "1", "2", … |
| Builder.Container.Initialize | wjson.c:348-371 | A fresh container holds exactly the EMPTY, keyless placeholder. |
| Builder.Container.InitializeList | wjson.c:623-646 | A fresh list is the same single placeholder as an object. |
| Builder.Container.Store | wjson.c:389-406 | The walk-and-store step leaves the chain equal to the append step, on the old chain, of the key cut at its first NUL. The chain shape is kept. |
| Builder.Container.HopsToTail | wjson.c:650-656 | The hop counter ends at the number of `next` links from the head to the tail. |
| Builder.Container.AppendString | wjson.c:387-425 | The new tail holds the key and a STRING payload, both cut at their first NUL by `wcsdup`. Earlier entries are as AttachShape says. |
| Builder.Container.AppendObject | wjson.c:442-473 | The new tail holds the key and an OBJECT payload: the chain the child handle held when it was attached. A NULL child is the empty chain. |
| Builder.Container.AppendList | wjson.c:490-521 | The same with a LIST payload. |
| Builder.Container.AppendNumerical | wjson.c:538-569 | The new tail holds the key and a NUMERICAL payload. |
| Builder.Container.AppendBoolean | wjson.c:586-617 | The new tail holds the key and a BOOLEAN payload. |
| Builder.Container.ListAppendString | wjson.c:648-694 | The new tail holds a STRING payload, cut at its first NUL, under the decimal hop count to the old tail. |
| Builder.Container.ListAppendObject | wjson.c:696-735 | The same with an OBJECT payload. |
| Builder.Container.ListAppendNumerical | wjson.c:737-776 | The same with a NUMERICAL payload. |
| Builder.Container.ListAppendList | wjson.c:778-817 | The same with a LIST payload. |
| Builder.Container.ListAppendBoolean | wjson.c:819-858 | The same with a BOOLEAN payload. |
| Scanner.Matches | wjson.c:9-40 | A failed probe leaves the stream where it was. A successful one consumes the keyword and at most one character more, never past the end of the text. |
| Scanner.KeywordAtSlice | wjson.c:19-31 | The character-by-character comparison succeeds exactly when the keyword is the text at the position. |
| Scanner.MismatchOnFirst | wjson.c:19-27 | A keyword whose first letter differs from the next character does not match, and the stream stays where it was. |
| Scanner.MatchSequence | wjson.c:9-40 | Returns 1 only when the whole keyword is the text at p, and then leaves the stream past it. On a mismatch, or at WEOF before the keyword ends, it returns 0 and restores p. |
| Scanner.StringBody | wjson.c:42-53 | The string lexer never moves the stream back, and it consumes at least one character unless at the end of the text. |
| Scanner.StringBodyStops | wjson.c:42-53 | The literal is the text from p up to the first `"`, with no escapes. The quote is consumed, and with no quote the literal runs to the end of the text. |
| Scanner.ScanString | wjson.c:42-53 | The loop collects exactly that literal and stops where StringBody says. |
| Scanner.NumberTail | wjson.c:55-72 | The number lexer never moves the stream back, and it consumes at least one character unless at the end of the text. |
| Scanner.NumberTailStops | wjson.c:55-72 | The number tail is the longest run of digits, `.` and `-`. The character that ends it is consumed. |
| Scanner.ScanNumber | wjson.c:55-67 | The lexeme is the first character followed by that run. |
| Scanner.SkipPast | wjson.c:205 | A discard loop never moves the stream back, and it consumes at least one character unless at the end of the text (also 217). |
| Scanner.SkipPastStops | wjson.c:205 | The discard loop stops right after the first stop character, or at the end of the text when there is none. |
| Scanner.SkipPastChar | wjson.c:217 | The loops that skip to `{` and to `:` stop where SkipPast says. |
| Grammar.Subobj | wjson.c:211-224 | Reading an object yields a chain of at least one node. It consumes at least one character unless at the end of the text. |
| Grammar.Members | wjson.c:218-221 | The member loop ends within the text and leaves a chain of at least one node. |
| Grammar.Member | wjson.c:190-209 | One member read ends within the text, never moves the stream back, and leaves a chain of at least one node. |
| Grammar.MemberKeyCut | wjson.c:190-209 | A member read from a `"` is either nothing or a node whose key is the lexed key cut at its first NUL, as `wcsdup` at wjson.c:406 copies it. |
| Grammar.MemberValueFinds | wjson.c:137-188 | The value loop leaves the chain unchanged only when it reaches the end of the text. |
| Grammar.MemberValue | wjson.c:137-188 | The value loop appends at most one value, under the given key: the chain is unchanged or is one KeyedAppend longer. |
| Grammar.ValueAt | wjson.c:140-185 | A value that is found is appended under the key as one KeyedAppend step, and the stream moves past the character that started it. |
| Grammar.ValueStarts | wjson.c:140-185 | No value starts exactly when the character is not `"`, `{`, `[` or a number character and no keyword follows it. `"` stores the string literal after it, `{` the sub-object read from it, and a number character not followed by a keyword the number lexeme. |
| Grammar.ListOf | wjson.c:80-86 | The result is the NULL handle (empty chain) exactly when the first character read is not `[`. |
| Grammar.Items | wjson.c:88-133 | The item loop ends within the text and leaves a chain of at least one node. |
| Grammar.Item | wjson.c:88-132 | Each round of the item loop consumes at least one character and leaves a chain. |
| Grammar.MemberDispatch | wjson.c:155-179 | A value found is never EMPTY or NULL. `[` stores a LIST. `null` after the dispatch character stores the string "null", and `true`/`false` store booleans. |
| Grammar.ItemStarts | wjson.c:90-132 | In the item loop `"` appends the string literal, `{` the sub-object, and a number character not followed by a keyword the number lexeme. Any other character with no keyword after it is skipped and appends nothing. |
| Grammar.ListDispatch | wjson.c:102-128 | A list round appends at most one item, never EMPTY, LIST or NULL. `[` appends the nested list tagged OBJECT. `null` appends nothing, and `true`/`false` append booleans. |
| Grammar.MembersStop | wjson.c:218-221 | The member loop ends right after a `}` it reads, or at the end of the text. |
| Grammar.ItemsStop | wjson.c:88 | The item loop ends right after a `]` it reads, or at the end of the text. |
| Reader.ParseSubobj | wjson.c:211-224 | The loop over members builds the chain Subobj describes, and it ends where Subobj does. |
| Reader.ParseKey | wjson.c:190-209 | A member is read only when the character is `"`: its key, the skip to `:`, then one value. |
| Reader.ParseValue | wjson.c:137-188 | The value loop appends what MemberValue describes. |
| Reader.ParseValueAt | wjson.c:140-185 | One round of the value loop appends what ValueAt describes. When no value starts, it changes nothing and consumes one character. |
| Reader.ParseList | wjson.c:80-135 | Returns NULL unless the first character is `[`, and otherwise the chain ListOf describes. |
| Reader.ParseItem | wjson.c:88-132 | One round of the item loop appends what Item describes. |
| Writer.Tabs | wjson.c:245-251 | The indentation is one tab per level and nothing for a level of zero or below. |
| Writer.RenderObject | wjson.c:293-332 | An object's text starts with `{` and a newline, and ends with `}`. |
| Writer.RenderList | wjson.c:253-291 | A list's text starts with `[` and a newline, and ends with `]`. |
| Writer.RenderEntries | wjson.c:297-329 | A chain renders to no text exactly when it is empty. |
| Writer.RenderEntry | wjson.c:283-285 | Every line ends with a newline. A line that another entry follows ends with a comma and a newline. |
| Writer.EntryLayout | wjson.c:259-285 | Every line starts with one tab more than its container's level. A non-last line is the last-line form with a comma before the newline. |
| Writer.ClosingLayout | wjson.c:289-290 | A container closes on a line of exactly its own level's tabs. |
| Writer.RenderValue | wjson.c:260-281 | The switch prints nothing exactly for an EMPTY payload and an empty number lexeme. Every other payload prints some text. |
| Writer.PrintIndentation | wjson.c:245-251 | The counting loop composes Tabs(indentation). |
| Writer.Print | wjson.c:293-332 | The loop over the chain composes RenderObject. |
| Writer.PrintList | wjson.c:253-291 | The loop over the chain composes RenderList. |
| Writer.PrintValue | wjson.c:260-281 | The switch on the tag composes RenderValue. |
| RoundTrip.ReadPrinted | wjson.c:211-332 | Reading the text the print calls compose (`RenderObject`) for a printable tree gives back that tree, list keys included, and stops after the closing brace. |
| RoundTrip.ObjectBack | wjson.c:211-224 | wjson_parse_subobj on the text the print calls compose for an object (`RenderObject`), whatever follows it, yields that object and stops right after its `}`. |
| RoundTrip.ListBack | wjson.c:80-135 | wjson_parse_list on the text the print calls compose for a list (`RenderList`), whatever follows it, yields that list and stops right after its `]`. |
| Quirks.KeywordNeedsLead | wjson.c:88-122 | `[true]` reads as an empty list. |
| Quirks.KeywordAfterBlank | wjson.c:88-112 | `[ true]` reads as one boolean under key "0", and the `]` is consumed by the match. |
| Quirks.NullNeedsLead | wjson.c:137-188 | In `{"a":null}` no value is stored, and the value loop runs past the `}`. |
| Quirks.NullAfterBlank | wjson.c:175-178 | In `{"a": null}` the value is the string "null". |
| Quirks.NulCutsKey | wjson.c:137-188 | The value loop given the key `k`, NUL, `x` stores the string under the key `k` (the copy at wjson.c:406). |
| Quirks.NumbersInList | wjson.c:123-127 | `[1,2]` gives two numbers, both under key "0", and ends at the end of the text. |

A tree is printable (`RoundTrip.PrintableObject`) when all of these hold:

- Containers are not empty.
- No value is EMPTY or NULL.
- Keys and strings hold no `"` and no NUL.
- Numbers are lexemes of digits, `.` and `-`.
- No list directly holds a list.
- List keys are the ones the list appends give.

Outside these trees the printer writes text that the reader reads differently. For example, `wjson_print` writes a NULL as `null` right after the blank of `" : "`, which the reader takes as the string "null".

## Left out

- The file layer is not modelled: `wjson_parse` with `fopen`/`fclose`, and its NULL result when the file cannot be opened. The reader starts from the text.
- Debug output is not modelled: the `printf`/`wprintf` traces inside the reader.
- Floating point is not modelled: `swscanf` in `parseDouble` and the `%f` formatting in the writer. A number is kept as the lexeme the reader collected and is printed as that lexeme.
- Allocation failure is not modelled: the `malloc`/`wcsdup` failure paths, their return of 0 and the `exit` calls. Allocation always succeeds.
- The fixed 1024-character buffers of the lexers and the key are not modelled. Longer strings overflow them in C, while the model takes any length.
- The string lexer returns a pointer to its own stack buffer. The model returns the collected characters.
- `Builder.Container.AppendObject` and the other container appends record the child as the chain it holds at the time of the append. Later changes to the child through another handle, and aliasing between containers, are not modelled.
- The list appends size the key buffer with the narrow `snprintf` and the wide format `L"%d"`. With a 4-byte little-endian `wchar_t`, that format reads as the one-character narrow string `"%"`, so the computed size is not the digit count and the wide text may be cut short or never written. The key text the C code produces is therefore unspecified. The model assumes the buffer receives the whole decimal text of the hop count.
- The stream orientation of the writer's output is not modelled. The writer prints keys with the byte function `printf` and everything else with the wide `wprintf` on the same `stdout`. Section 7.21.2 of C11 forbids mixing the two on one stream: the first call fixes the stream's orientation, and on glibc every later call of the other family fails and writes nothing. So the program never actually emits the `RenderObject` text. The model's Writer and RoundTrip state what the print calls compose (`RenderObject`, `RenderList`), the text the format strings describe, and not the bytes that reach `stdout`. A NULL key (the placeholder of an empty container) is composed as `(null)`.
- `Builder.Container` methods require `Valid()`: the chain shape that every container the library creates keeps. Arbitrary hand-linked node graphs are not modelled.
- Character decoding is not modelled. The model reads characters already decoded, while `fgetwc` decodes bytes under the program's locale. On an encoding error `fgetwc` returns WEOF, which ends every reader loop early as at the end of the text.
- The `wjson_test` demo and the stray bytes at `wjson.c:334` are not modelled.
