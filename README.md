# Weka option utilities and option-handler generator, modelled in Dafny

This project models two sequential components of the `weka-option-utils` library.

**WekaOptionUtils** converts option values to and from Weka's flat command-line token protocol.
- A `parse` looks up `-flag` in the caller's `String[]` through Weka's consuming lookup. It takes the token after the flag, blanks both tokens, and converts the value. It returns the default when the flag is absent or its value is empty.
- The String-array and typed-array parses repeat the lookup while an occurrence of `-flag` is left. The handler-array parse stops at the first lookup that returns an empty value, which includes an absent flag.
- An `add` appends `-flag` and the value's text to the caller's `List<String>`. A true boolean appends the bare flag.
- `addFlag` and `addOption` build help entries. `forCommandLine` and `fromCommandLine` split a nested command line into a class name and its remaining tokens.

**GenerateOptionHandler** takes a class `Definition` and generates the source text of an abstract Java class. The text holds a flag constant and a field per option, `listOptions`, `setOptions` and `getOptions`, and default, getter, setter and tip-text methods per option. The generator also computes the file the text goes to. `execute` handles configurations in order and stops at the first error.

## Layout

- `wrappers.dfy`: `Option` (Java's `null`) and `Result` (a value or an exception).
- `java_text.dfy`: the Java text primitives the code relies on. These are `String.valueOf` of an int or long, `Integer.parseInt` and `Long.parseLong`, the `trim()` blank test, ASCII `toUpperCase`, `List.toString`, and a StringBuilder's contents as the concatenation of its appended chunks.
- `weka_utils.dfy`: Weka's `Utils.getOptionPos` and `Utils.getOption`, which the parses call.
  - `GetOptionPos` finds the first index of `-flag`.
  - `GetOption` returns the following token and blanks both tokens in place.
  - When the flag is the last token, `GetOption` raises "No value given".
  - When the flag is absent, `GetOption` returns `""` and changes nothing.

  This library is not part of this model's source. Its contract is declared here and proved against the spec functions `FirstIndex` and `Take`.
- `weka_option_utils.dfy`: the parse overloads as methods over `array<string>`. Each one is proved equal to a spec function over `seq<string>` that returns the value and the tokens left behind. The add overloads are methods of `TokenList` (the caller's `List<String>`) and `HelpList` (the caller's `Vector<Option>`).
- `generate_option_handler.dfy`: the `Option`/`Definition` records and their defaults, `trimClass`, `upFirst`, the generated text as a function, and `generate` as the sequence of StringBuilder appends proved equal to it. It also holds the output path, `Definition.toString`, and the `Generator` class whose `Execute` loop is proved against `ExecuteFrom`.

Environment access is passed in as parameters:
- `Utils.splitOptions` and `Utils.toCommandLine` are function parameters (`split`, `render`).
- Class instantiation through a `String` constructor is a `construct` parameter.
- Configuration reading, file writing and `getAbsolutePath` are function fields of `Environment`.
- The clock's year and the file separator are arguments.

Two facts about the generator:
- The flag is taken verbatim from the configuration and is required. It is never derived from the property name (`GenerateOptionHandler.java:520`, `:642`).
- Generated setters assign unconditionally. There is no constraint guard (`GenerateOptionHandler.java:747`).

## Model

| member | source | states |
|---|---|---|
| WekaUtils.GetOptionPos | src/main/java/weka/core/WekaOptionUtils.java:307-312 | the position the array loop tests is the first index holding "-flag", or -1 when there is none |
| WekaUtils.GetOption | src/main/java/weka/core/WekaOptionUtils.java:62-68 | in place: the token after the first "-flag" is returned, and both are blanked; absent flag gives "" and no change; a trailing flag raises NoValueGiven and changes nothing |
| WekaUtils.FirstIndex | src/main/java/weka/core/WekaOptionUtils.java:309 | -1 exactly when "-flag" is absent, otherwise the first index holding it |
| WekaUtils.Take | src/main/java/weka/core/WekaOptionUtils.java:63 | the lookup keeps the array length, returns "" and changes nothing when the flag is absent, and changes nothing when it raises |
| JavaText.ParseInt32 | src/main/java/weka/core/WekaOptionUtils.java:67 | Integer.parseInt succeeds exactly on decimal text whose value fits 32 bits |
| JavaText.ParseInt64 | src/main/java/weka/core/WekaOptionUtils.java:97 | Long.parseLong succeeds exactly on decimal text whose value fits 64 bits |
| JavaText.ParseDecimalOfIntToString | src/main/java/weka/core/WekaOptionUtils.java:379 | the decimal text that add writes for a number parses back to that number |
| JavaText.ToUpperCase | src/main/java/weka/core/GenerateOptionHandler.java:642 | the upper-cased constant name has the length of the property |
| WekaUtils.TakeConsumes | src/main/java/weka/core/WekaOptionUtils.java:307-312 | each successful lookup removes one occurrence of "-flag", so the array loops terminate |
| WekaUtils.TakePair | src/main/java/weka/core/WekaOptionUtils.java:182-188 | with no earlier occurrence, the lookup returns the value after "-flag" and blanks exactly that pair |
| WekaUtils.TakeKeepsOthers | src/main/java/weka/core/WekaOptionUtils.java:182-188 | every token outside the matched pair is left unchanged |
| WekaOptionUtils.ParseInt | src/main/java/weka/core/WekaOptionUtils.java:62-68 | the int parse mutates the array as the lookup does and returns the default for "", the decimal value, or NumberFormat |
| WekaOptionUtils.ParseLong | src/main/java/weka/core/WekaOptionUtils.java:92-98 | the same for long, with the 64-bit range |
| WekaOptionUtils.ParseString | src/main/java/weka/core/WekaOptionUtils.java:182-188 | returns the value after the flag, or the default when it is absent or empty |
| WekaOptionUtils.ParseFile | src/main/java/weka/core/WekaOptionUtils.java:212-218 | returns a file for the value after the flag, or the default when it is absent or empty |
| WekaOptionUtils.ParseHandler | src/main/java/weka/core/WekaOptionUtils.java:242-248 | returns the handler built from the nested command line, or the default when the value is absent or empty; a blank command line is rejected |
| WekaOptionUtils.ParseStrings | src/main/java/weka/core/WekaOptionUtils.java:307-312 | the loop's result and the tokens left equal Collect, whose values are all "-flag" values in left-to-right order (CollectIsValues), with every consumed pair blanked |
| WekaOptionUtils.ParseHandlers | src/main/java/weka/core/WekaOptionUtils.java:274-285 | collects values until the first empty one; gives the default when none were collected, otherwise one handler per value in order |
| WekaOptionUtils.HandlersFromValues | src/main/java/weka/core/WekaOptionUtils.java:282-284 | the conversion loop equals HandlersFor over the collected values |
| WekaOptionUtils.HandlersForMeaning | src/main/java/weka/core/WekaOptionUtils.java:282-284 | conversion succeeds exactly when every value converts; then one handler per value in order, otherwise the first failing value's error |
| WekaOptionUtils.HandlersForPrefix | src/main/java/weka/core/WekaOptionUtils.java:282-284 | after i converted values, the remaining conversion extends the handlers built so far |
| WekaOptionUtils.ParseArray | src/main/java/weka/core/WekaOptionUtils.java:336-357 | gathers all values like the String-array parse, then constructs one element per value in order; a failed construction leaves its slot empty |
| WekaOptionUtils.FromCommandLine | src/main/java/weka/core/WekaOptionUtils.java:664-672 | the first split token is the class name and slot 0 is blanked before the tokens are passed on; an empty split raises IndexOutOfBounds |
| WekaOptionUtils.ForCommandLine | src/main/java/weka/core/WekaOptionUtils.java:701-713 | an all-blank command line is rejected with "Empty commandline supplied!"; otherwise the result is the same as FromCommandLine |
| WekaOptionUtils.ForAndFromCommandLineAgree | src/main/java/weka/core/WekaOptionUtils.java:701-713 | for a non-blank command line, forCommandLine and fromCommandLine agree |
| WekaOptionUtils.Collect | src/main/java/weka/core/WekaOptionUtils.java:307-312 | with no "-flag" token, the String-array parse returns an empty array and leaves the tokens as they are |
| WekaOptionUtils.CollectNonEmpty | src/main/java/weka/core/WekaOptionUtils.java:277-278 | every value the handler-array loop collects is non-empty |
| WekaOptionUtils.AbsentFlagGivesDefault | src/main/java/weka/core/WekaOptionUtils.java:62-68 | without "-flag", the int, long, String, File and OptionHandler parses return the default and change nothing |
| WekaOptionUtils.HandlerPair | src/main/java/weka/core/WekaOptionUtils.java:242-248 | over a "-flag"/value pair with no earlier "-flag": an empty value gives the default and any other value gives forCommandLine's handler or exception; either way exactly that pair is blanked |
| WekaOptionUtils.IntRoundTrip | src/main/java/weka/core/WekaOptionUtils.java:377-380 | the int parse of what add(int) appended gives the value back, blanking that pair |
| WekaOptionUtils.LongRoundTrip | src/main/java/weka/core/WekaOptionUtils.java:400-403 | the long parse of what add(long) appended gives the value back |
| WekaOptionUtils.StringRoundTrip | src/main/java/weka/core/WekaOptionUtils.java:469-472 | the String parse of what add(String) appended gives a non-empty value back, and the default for "" |
| WekaOptionUtils.FileRoundTrip | src/main/java/weka/core/WekaOptionUtils.java:515-518 | the File parse of what add(File) appended gives the file back unless its path is empty |
| WekaOptionUtils.NonDecimalIsRejected | src/main/java/weka/core/WekaOptionUtils.java:62-68 | a non-empty value that is not decimal text makes the int and long parses raise NumberFormat |
| WekaOptionUtils.DistinctFlagsCommute | src/main/java/weka/core/WekaOptionUtils.java:182-188 | parses of two different flags read the same values and leave the same tokens, in either order |
| WekaOptionUtils.RepeatedLookup | src/main/java/weka/core/WekaOptionUtils.java:307-312 | repeated lookups of one flag read its occurrences left to right, then find nothing |
| WekaOptionUtils.CollectValuesAfter | src/main/java/weka/core/WekaOptionUtils.java:307-312 | behind any prefix without "-flag", the String-array loop returns exactly the values of an independent left-to-right scan: after each "-flag", the next token is a value and the scan resumes behind it; a trailing "-flag" raises; occurrences may be separated by other tokens |
| WekaOptionUtils.CollectIsValues | src/main/java/weka/core/WekaOptionUtils.java:307-312 | the String-array parse's result is the scan's values, for any tokens |
| WekaOptionUtils.CollectPairs | src/main/java/weka/core/WekaOptionUtils.java:307-312 | over the pairs that add(List, String, Object) appends, the String-array parse returns all values in order and blanks all those tokens |
| WekaOptionUtils.CollectNonEmptyPairs | src/main/java/weka/core/WekaOptionUtils.java:277-278 | non-empty values are collected in order, and the result is prepended to what follows |
| WekaOptionUtils.StopsAtFirstEmptyValue | src/main/java/weka/core/WekaOptionUtils.java:277-278 | the handler-array loop stops at the first empty value: it returns the values before it and consumes that pair too |
| WekaOptionUtils.EmptyValueStops | src/main/java/weka/core/WekaOptionUtils.java:277-278 | an empty first value ends the loop with nothing collected |
| WekaOptionUtils.HandlersFromPairs | src/main/java/weka/core/WekaOptionUtils.java:274-285 | over the pairs add appends, the handler-array parse gives the default for no values, otherwise the converted handlers in order |
| WekaOptionUtils.PairsSnoc | src/main/java/weka/core/WekaOptionUtils.java:564-568 | one more element appends exactly one more "-flag"/value pair at the end |
| JavaText.Lines | src/main/java/weka/core/WekaOptionUtils.java:564-568 | one rendered text per element, in element order (the array elements added, the interfaces imported) |
| WekaOptionUtils.TokenList.AddInt | src/main/java/weka/core/WekaOptionUtils.java:377-380 | appends exactly "-flag" and the decimal text of the value; earlier tokens unchanged |
| WekaOptionUtils.TokenList.AddLong | src/main/java/weka/core/WekaOptionUtils.java:400-403 | appends exactly "-flag" and the decimal text of the long |
| WekaOptionUtils.TokenList.AddString | src/main/java/weka/core/WekaOptionUtils.java:469-472 | appends exactly "-flag" and the value |
| WekaOptionUtils.TokenList.AddBool | src/main/java/weka/core/WekaOptionUtils.java:492-495 | appends the single token "-flag" if and only if the value is true |
| WekaOptionUtils.TokenList.AddFile | src/main/java/weka/core/WekaOptionUtils.java:515-518 | appends exactly "-flag" and the file's path |
| WekaOptionUtils.TokenList.AddHandler | src/main/java/weka/core/WekaOptionUtils.java:538-541 | appends exactly "-flag" and the handler's command line |
| WekaOptionUtils.TokenList.AddArray | src/main/java/weka/core/WekaOptionUtils.java:561-569 | rejects a non-array value, changing nothing; otherwise appends one pair per element in element order, and nothing for an empty array |
| WekaOptionUtils.TokenList.AddAll | src/main/java/weka/core/WekaOptionUtils.java:577-579 | appends the parent's tokens in order after the existing ones |
| WekaOptionUtils.TokenList.ToArray | src/main/java/weka/core/WekaOptionUtils.java:642-644 | a fresh array holding the tokens in order |
| WekaOptionUtils.HelpNamesTheParsedToken | src/main/java/weka/core/WekaOptionUtils.java:599-601 | the synopsis of addFlag is "-flag"; that of addOption is "-option" and a blank, its description ending in the default |
| WekaOptionUtils.HelpList.AddFlag | src/main/java/weka/core/WekaOptionUtils.java:599-601 | appends one entry with description "\t"+text and synopsis "-flag" |
| WekaOptionUtils.HelpList.AddOption | src/main/java/weka/core/WekaOptionUtils.java:621-623 | appends one entry with description "\t"+text+"\n\t(default: "+def+")" and synopsis "-"+option+" <value>" |
| WekaOptionUtils.HelpList.AddAll | src/main/java/weka/core/WekaOptionUtils.java:631-634 | appends the parent's help entries in order |
| GenerateOptionHandler.NewOption | src/main/java/weka/core/GenerateOptionHandler.java:118-134 | a new option has empty default value and empty help |
| GenerateOptionHandler.NewDefinition | src/main/java/weka/core/GenerateOptionHandler.java:154-182 | a new definition has empty package, prefix, suffix, superclass, interface list and option list |
| GenerateOptionHandler.NewDefinitionShape | src/main/java/weka/core/GenerateOptionHandler.java:592-636 | a definition with the defaults chains to super, has no package line and no extends or implements clause, and can be generated |
| GenerateOptionHandler.TrimClass | src/main/java/weka/core/GenerateOptionHandler.java:541-546 | the text after the last '.', which holds no '.'; the whole name when it has no '.' |
| GenerateOptionHandler.LastIndexOf | src/main/java/weka/core/GenerateOptionHandler.java:543 | -1 exactly when the character is absent, otherwise the index of its last occurrence |
| GenerateOptionHandler.UpFirst | src/main/java/weka/core/GenerateOptionHandler.java:554-556 | raises exactly on the empty string; otherwise the first character is upper-cased and the rest kept |
| GenerateOptionHandler.OptionWithoutHelpCannotBeGenerated | src/main/java/weka/core/GenerateOptionHandler.java:134 | an option whose configuration has no "help" keeps the empty help, and generation then raises in upFirst |
| GenerateOptionHandler.UpFirstFailsSomewhere | src/main/java/weka/core/GenerateOptionHandler.java:649 | some property or help is empty exactly when upFirst fails on one of them |
| GenerateOptionHandler.GenerateFailsIff | src/main/java/weka/core/GenerateOptionHandler.java:649 | generation fails exactly when upFirst fails on some option's property or help |
| GenerateOptionHandler.ListOptionsChaining | src/main/java/weka/core/GenerateOptionHandler.java:661-676 | one addOption line per option in order; the super call appears exactly when chaining, then once and after every option line |
| GenerateOptionHandler.SetOptionsChaining | src/main/java/weka/core/GenerateOptionHandler.java:678-696 | one setter line per option in order; super.setOptions exactly when chaining, once, after every option line |
| GenerateOptionHandler.GetOptionsChaining | src/main/java/weka/core/GenerateOptionHandler.java:698-713 | one add line per option in order; the super call exactly when chaining, once, after every option line |
| GenerateOptionHandler.ProtocolShape | src/main/java/weka/core/GenerateOptionHandler.java:671-676 | head, then one line per option, then the super line when on, then the tail: the super line occurs exactly when on, and then once |
| GenerateOptionHandler.PerOptionBlocks | src/main/java/weka/core/GenerateOptionHandler.java:639-650 | an option's flag, field and accessor blocks sit between the blocks of the options before and after it |
| GenerateOptionHandler.FlattenMember | src/main/java/weka/core/GenerateOptionHandler.java:611-614 | a chunk is in a per-option section exactly when some option's block holds it |
| GenerateOptionHandler.TypeImportsExactlyDotted | src/main/java/weka/core/GenerateOptionHandler.java:611-614 | a type is imported exactly when it contains '.' and some option has that type |
| GenerateOptionHandler.SetOptionCastIffDotted | src/main/java/weka/core/GenerateOptionHandler.java:689-692 | the setOptions call casts the parsed value exactly for a type containing '.' |
| GenerateOptionHandler.FlagConstantHoldsFlagVerbatim | src/main/java/weka/core/GenerateOptionHandler.java:642 | the constant is named by the property upper-cased and holds the flag verbatim between quotes |
| GenerateOptionHandler.FieldCommentWithoutHelp | src/main/java/weka/core/GenerateOptionHandler.java:648 | without help the field comment is the property alone, with no closing delimiter and no line break |
| GenerateOptionHandler.PreambleNamesFile | src/main/java/weka/core/GenerateOptionHandler.java:586 | the header comment uses the name only |
| GenerateOptionHandler.DeclarationNamesClass | src/main/java/weka/core/GenerateOptionHandler.java:625 | the declared class is prefix+name+suffix |
| GenerateOptionHandler.OutputPath | src/main/java/weka/core/GenerateOptionHandler.java:768-771 | the output directory, then the package with dots replaced by separators when the package structure is added, then separator+prefix+name+suffix+".java" |
| GenerateOptionHandler.ReplaceDots | src/main/java/weka/core/GenerateOptionHandler.java:770 | no '.' remains when the separator has none, and a name without '.' is unchanged |
| GenerateOptionHandler.OutputFile | src/main/java/weka/core/GenerateOptionHandler.java:768-771 | the in-place string building equals OutputPath |
| GenerateOptionHandler.AppendPreamble | src/main/java/weka/core/GenerateOptionHandler.java:580-595 | appends the GPL text, the copyright comment with the year and organization, and the package line only for a non-empty package |
| GenerateOptionHandler.AppendImports | src/main/java/weka/core/GenerateOptionHandler.java:597-615 | appends the imports; the flag it computes while importing the interfaces is false exactly when "weka.core.OptionHandler" is among them |
| GenerateOptionHandler.AppendInterfaces | src/main/java/weka/core/GenerateOptionHandler.java:630-634 | appends the simple interface names separated by ", " |
| GenerateOptionHandler.AppendClassDeclaration | src/main/java/weka/core/GenerateOptionHandler.java:617-636 | appends the class comment and declaration, with extends only for a superclass and implements only for interfaces |
| GenerateOptionHandler.AppendFlags | src/main/java/weka/core/GenerateOptionHandler.java:638-643 | appends one flag-constant block per option, in order |
| GenerateOptionHandler.AppendFields | src/main/java/weka/core/GenerateOptionHandler.java:645-650 | appends one field per option in order; raises exactly when some property is empty |
| GenerateOptionHandler.AppendListOptions | src/main/java/weka/core/GenerateOptionHandler.java:661-676 | the listOptions loop and its super call equal the listOptions section |
| GenerateOptionHandler.AppendSetOptions | src/main/java/weka/core/GenerateOptionHandler.java:678-696 | the setOptions loop and its super call equal the setOptions section |
| GenerateOptionHandler.AppendGetOptions | src/main/java/weka/core/GenerateOptionHandler.java:698-713 | the getOptions loop and its super call equal the getOptions section |
| GenerateOptionHandler.AppendAccessors | src/main/java/weka/core/GenerateOptionHandler.java:715-760 | appends default, getter, setter and tip-text per option in order; raises exactly when some help is empty |
| GenerateOptionHandler.GenerateCode | src/main/java/weka/core/GenerateOptionHandler.java:575-763 | the appends complete exactly when every property and help is non-empty, and then equal the specified chunks |
| GenerateOptionHandler.Generate | src/main/java/weka/core/GenerateOptionHandler.java:563-771 | None exactly when the text specification fails; otherwise the text depends only on the definition and the year, and the path is OutputPath |
| GenerateOptionHandler.Numbered | src/main/java/weka/core/GenerateOptionHandler.java:207-208 | one line per option, made from its index and the option |
| GenerateOptionHandler.DefinitionToString | src/main/java/weka/core/GenerateOptionHandler.java:190-213 | the appends of toString equal DefinitionText: the field lines, then "-none-" or one numbered entry per option |
| GenerateOptionHandler.DefinitionTextNamesFirst | src/main/java/weka/core/GenerateOptionHandler.java:195 | the text begins with "name: "+name and a line break |
| GenerateOptionHandler.DefinitionTextEnding | src/main/java/weka/core/GenerateOptionHandler.java:204-209 | the text ends with "-none-" without options, else with the last option's entry and a line break |
| GenerateOptionHandler.ExecuteStopsAtFirstFailure | src/main/java/weka/core/GenerateOptionHandler.java:807-816 | null is returned exactly when every configuration passes, and then the last one's definition is held; otherwise the run ends at the first configuration that does not pass, with its message or exception and its definition |
| GenerateOptionHandler.Generator.constructor | src/main/java/weka/core/GenerateOptionHandler.java:240-247 | no definition, no configurations, output directory ".", package structure, directory generation and verbosity off |
| GenerateOptionHandler.Generator.LoadJSON | src/main/java/weka/core/GenerateOptionHandler.java:480-528 | an unreadable file gives the message listing every configuration and the exception, and the definition is not replaced; otherwise no message and the parsed definition is held |
| GenerateOptionHandler.Generator.GenerateHeld | src/main/java/weka/core/GenerateOptionHandler.java:563-795 | generate with the held definition: raises when none is held or upFirst raises; a failed write gives "Failed to output generated code to: "+path and the exception |
| GenerateOptionHandler.Generator.Execute | src/main/java/weka/core/GenerateOptionHandler.java:802-817 | the loop with break equals ExecuteFrom over the configurations: the definition is reset per configuration, and the outcome and the final held definition match |

## Left out

- Floating-point `parse` and `add` (`float`, `double`): floating point is not modelled.
- The `char` overloads of `parse`, `add`, `addFlag` and `addOption`: they only turn the character into a one-character string.
- `toEnumeration` and `toCommandLine`: plain delegations to the Java and Weka libraries. `Utils.toCommandLine` is the `render` parameter.
- `Utils.getOptionPos`: skipping negative numbers and stopping at the `--` terminator are not modelled. The lookup scans the whole array.
- `Utils.splitOptions` and `Utils.forName`: modelled as the `split` parameter and a `Handler(className, options)` value. `split` is total, so a split that fails (for example on unbalanced quotes) is not modelled. Class loading, assignability checks and `setOptions` on the new object are not modelled either.
- Reflection in the typed-array parse: a missing `String` constructor and `Array.newInstance` are not modelled. A failed construction, which the source logs to standard error, leaves an empty slot (`None`).
- The handler-array parse builds an array of the requested class. The model returns a sequence of handlers.
- `java.io.File`: a file is its path text, and `new File`'s normalisation is not modelled. parse(File) keeps the value text as it is, so the model keeps a trailing separator that Java drops. The write-failure message prints the output path exactly as it was built: with the package structure on and an empty package, it can hold a doubled separator that Java would remove. `getAbsolutePath` of the output directory is the `absolute` field of `Environment`.
- Java `null`: fields the configuration does not set print as "null" in `toString`. The model's strings are never null.
- Unicode: digit parsing and `toUpperCase` cover ASCII only.
- JSON loading (the gson parse, required keys and their exceptions): a configuration is read by `Environment.load`, which gives a `Definition` or the exception text. Missing required keys, which throw out of `loadJSON`, are not modelled.
- Command-line parsing, `main` and the `Generator` setters and getters: argparse4j and process exit codes.
- File writing, `mkdirs`, logging and `closeQuietly`: I/O. The write is `Environment.write`. Directory creation only logs and does not change the result.
- The clock: the year is an argument.
- The StringBuilder is modelled as the sequence of appended chunks. Its text is their concatenation.
- GenerateOptionHandler.Generate: the write and the log lines around it are in `GenerateHeld`, through `Environment.write`.
