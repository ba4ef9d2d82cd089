# ANML network builder

A Dafny model of `Anml.py`. That file builds an automaton network in memory and writes it out as ANML, the Automata Network Markup Language.

- A state-transition element (`Ste`) gets these fields once, when it is built (for the character class list, see "Left out"):
  - an id;
  - a character class;
  - a start classification (`AnmlDefs`);
  - an optional report code;
  - a match flag.
- After that, only its ordered list of neighbours grows.
- A network (`Anml`) has an id (`"an1"` by default) and an ordered list of states. `AddSTE` appends states to it, and `AddAnmlEdge`/`AddAnmlEdges` connect them.
- Both classes write themselves as ANML text with `__str__`.

The model has five modules:

- `Wrappers` holds the `Option` datatype.
- `PyStr` models Python's `str()` on the integer, string or `None` values passed as `anmlId` and `reportCode`:
  - decimal output, with a leading `-` and no leading zeros;
  - a reader that inverts it.
- `Markup` holds the text both `__str__` methods produce, as pure functions of the fields they read.
  - The fixed markup between the fields is a `Tags` value; `AnmlTags` holds exactly the literals of the source.
  - The lemmas hold for any `Tags`.
- `MarkupParse` is a reader for exactly that text. It is the independent partner of the renderer:
  - every parser's contract says that what it accepts is the rendering of what it returns;
  - the round-trip lemmas say that every rendering is read back whole, provided no field holds a double quote;
  - `AnmlTagsDistinguishable` shows that the source's literals meet the conditions the reader relies on.
- `Automata` holds the classes `Ste` and `Anml`:
  - constant fields for what the constructor fixes;
  - `starting_` and `start_type_` as a predicate and a function of `defs`, because the constructor sets them from `defs` alone and nothing changes them afterwards;
  - `seq` fields for the lists that grow;
  - `modifies` clauses on the methods that append;
  - `ToString`/`Render` loop methods that build the text the way `__str__` does. Each is proved equal to the `Markup` function.

Since the reader recovers every field in order, the round-trip lemmas state what the text contains and what it does not:
- the `start="all-input"` attribute appears exactly when the state was built with `ALL_INPUT`;
- the report child appears exactly when a report code was given, whatever the match flag;
- one activate-on-match line appears per neighbour, in insertion order;
- the symbol set and the id appear verbatim.

## Model

| member | source | states |
|---|---|---|
| PyStr.NatToString | Anml.py:54 | `str(n)` for `n >= 0` is a non-empty string of digits with no leading zero, and it starts with `0` only for `0` |
| PyStr.IntToString | Anml.py:54 | `str(i)` of an integer never holds a double quote |
| PyStr.ParseInt | Anml.py:54 | whatever it accepts is a canonical decimal, optionally negative |
| PyStr.NatRoundTrip | Anml.py:54 | the digits `str(n)` writes denote `n` |
| PyStr.CanonicalRoundTrip | Anml.py:54 | every canonical digit string is `str()` of the number it denotes |
| PyStr.IntRoundTrip | Anml.py:54 | reading back `str(i)` gives `i` for every integer |
| PyStr.ParseIntSound | Anml.py:54 | the reader accepts only strings that `str()` writes |
| PyStr.IntToStringInjective | Anml.py:54 | different integer ids give different id strings |
| PyStr.Str | Anml.py:54-59 | `str()` writes an integer so that the reader gives the integer back, with no double quote in it; it keeps a string as it is; it writes `None` as `None` |
| Markup.Concat | Anml.py:81 | `''.join` adds no separator: the length of the result is the sum of the tokens' lengths, and a character occurs in it exactly when it occurs in one of the tokens |
| Markup.ConcatChars | Anml.py:81 | joining the characters of a string character class gives the string back, verbatim |
| Markup.ActivationsAppend | Anml.py:89-91 | the activate-on-match lines for two neighbour lists one after the other are the two blocks of lines concatenated, in order |
| Markup.ActivationsSnoc | Anml.py:89-91 | one more neighbour adds exactly its own activate-on-match line, at the end |
| Markup.AddTargetText | Anml.py:68-71 | after `add_edge`, the element text is the old text up to its last activate line, then the new neighbour's line, then the closing tag |
| Markup.SteText | Anml.py:78-93 | an element's text opens with the element tag and then the state's id; the rest of its layout is pinned down by the reader (`MarkupParse.ParseSte`, `MarkupParse.SteOf`) |
| Markup.NetworkText | Anml.py:103-112 | the document opens with the `anml` tag, then the network tag and the network id; the rest of its layout is pinned down by the reader (`MarkupParse.ParseNetwork`, `MarkupParse.NetworkRoundTrip`) |
| Markup.BodyAppend | Anml.py:108-109 | the indented elements of two state lists one after the other are the two bodies concatenated |
| Markup.BodySnoc | Anml.py:108-109 | one more state adds its text, indented by two tabs, at the end |
| Markup.BodyCons | Anml.py:108-109 | the first state's indented text comes before all the others |
| Markup.AddElementText | Anml.py:114-120 | after `AddSTE`, the document is the old header and elements, then the new element, then the two closing lines |
| MarkupParse.AnmlTagsDistinguishable | Anml.py:80-111 | the source's literals differ where the reader must choose: start attribute or end of tag, report or activate line, activate line or closing tag, more elements or end of network |
| MarkupParse.ParseStart | Anml.py:82-85 | what it accepts is ` start="t">` plus newline, or `>` plus newline when there is no start type |
| MarkupParse.ParseOpenTag | Anml.py:80-85 | what it accepts is the opening tag with the returned id, symbol set and start type |
| MarkupParse.ParseReport | Anml.py:86-88 | what it accepts is the report line for the returned code, or nothing when there is none |
| MarkupParse.ParseActivations | Anml.py:89-91 | what it accepts is one activate-on-match line per returned target, in order |
| MarkupParse.ParseSte | Anml.py:78-93 | what it accepts is the complete text of the returned element |
| MarkupParse.ParseBody | Anml.py:108-109 | what it accepts is the returned elements, each indented by two tabs, in order |
| MarkupParse.ParseNetwork | Anml.py:103-112 | what it accepts is exactly the document of the returned network id and elements |
| MarkupParse.StartOf | Anml.py:82-85 | the start attribute, when present, is read back with its value; when absent, no start type is read |
| MarkupParse.NoReportAfter | Anml.py:86-92 | the activate lines and the closing tag never start like a report line, so a report is read only where one was written |
| MarkupParse.ReportOf | Anml.py:86-88 | the report code is read back exactly when one was written |
| MarkupParse.ActivationsOf | Anml.py:89-91 | every activate line is read back, in order, and reading stops at the closing tag |
| MarkupParse.SteOf | Anml.py:78-93 | with quote-free fields, an element's text is read back as exactly its id, symbol set, start type, report code and targets |
| MarkupParse.BodyOf | Anml.py:108-109 | with quote-free fields, every indented element is read back, in order |
| MarkupParse.NetworkRoundTrip | Anml.py:103-112 | with quote-free fields, a document is read back as exactly its network id and its elements in insertion order |
| MarkupParse.NetworkTextInjective | Anml.py:103-112 | with quote-free fields, different networks never give the same document |
| MarkupParse.QuoteMakesTextAmbiguous | Anml.py:80-81 | without escaping, an id that holds `"` and ` symbol-set="` renders exactly like a different element with a shorter id |
| Automata.DefsValue | Anml.py:8-10 | each member of `AnmlDefs` has value 1 or 2, and the value is 1 exactly for `ALL_INPUT` |
| Automata.DefsOf | Anml.py:8-10 | `AnmlDefs(v)` finds a member exactly for 1 and 2, and the member it finds has value `v` |
| Automata.DefsRoundTrip | Anml.py:8-10 | every member is found again from its value, so the two values are distinct |
| Automata.Ste.StartType | Anml.py:50-66 | a state has a start type exactly when it is starting, and it is starting exactly when it was built with `ALL_INPUT` |
| Automata.Ste.Fields | Anml.py:80-91 | what `__str__` reads: the start type is `all-input` exactly for `ALL_INPUT` and absent exactly for `NO_START`; there is one target per neighbour; the symbol set holds exactly the characters of the character class |
| Automata.Ste.constructor | Anml.py:44-66 | sets the id to `str(anmlId)` and keeps the character class and `defs`; sets the report code to `str(reportCode)` exactly when the keyword is given, even when it is `None`; sets the match flag to false unless given; starts with no neighbours |
| Automata.Ste.AddEdge | Anml.py:68-71 | the neighbours are the old ones followed by `ste2`; the rendered fields gain exactly that target at the end |
| Automata.Ste.AddEdges | Anml.py:73-76 | adding the states one by one leaves the old neighbours followed by all of them, in order |
| Automata.Ste.Render | Anml.py:78-93 | the string built step by step equals the element text, for any markup |
| Automata.Ste.ToString | Anml.py:78-93 | `__str__` is the element text of the state's current fields, with the source's markup |
| Automata.Anml.constructor | Anml.py:99-101 | a new network has id `"an1"` and no states |
| Automata.Anml.WithId | Anml.py:99-101 | a new network has the given id and no states |
| Automata.Anml.AddSte | Anml.py:114-120 | returns a fresh state built from the arguments and appends exactly it at the end; earlier states and their renderings are unchanged; keeps `Closed` |
| Automata.Anml.AddAnmlEdge | Anml.py:122-125 | `ste2` becomes the last neighbour of `ste1`; keeps `Closed` when `ste2` is in the network |
| Automata.Anml.AddAnmlEdges | Anml.py:127-130 | the targets become the last neighbours of `ste1`, in order; keeps `Closed` when all of them are in the network |
| Automata.Anml.Render | Anml.py:103-112 | the string built step by step equals the document text, for any markup |
| Automata.Anml.ToString | Anml.py:103-112 | `__str__` is the document text of the network's id and its states' current fields, in network order, with the source's markup |
| Automata.SteTextReadsBack | Anml.py:58-93 | with quote-free fields, the text of any state reads back whole: its id; its symbol set, verbatim; `start="all-input"` exactly when built with `ALL_INPUT` and no start otherwise; its report code exactly when it has one; one activate-on-match line per neighbour, naming that neighbour's id, in neighbour order |
| Automata.NetworkTextReadsBack | Anml.py:103-112 | with quote-free fields, a network's text reads back as its id and one element per state, in insertion order; each element carries `start="all-input"` exactly when its state was built with `ALL_INPUT`, its state's report code, and its state's neighbours' ids in order |

## Left out

- The `Logic` class (Anml.py:12-37) is not part of this model. It is unfinished: its text has no attribute terminator. Line 29 is indented with tabs and line 30 with spaces, which Python 3 rejects when it compiles the file, so as written the module defines nothing. The model describes `AnmlDefs`, `Ste` and `Anml` as they behave once `Logic` is removed or its indentation fixed.
- `ExportAnml` (Anml.py:132-137) writes `str(self)` to a file. The file I/O is left out; `Anml.ToString` models the text it writes.
- The `__main__` driver (Anml.py:140-163) is left out. Even with `Logic` fixed, it calls `AddAnmlEdge` with three arguments (line 157) against a two-parameter signature (line 122), so it would stop with a `TypeError` at its first edge.
- `Automata.Anml.AddAnmlEdges` drops the unused `stuff` parameter.
- Nothing in the source prevents dangling edges. `AddAnmlEdge` and `AddAnmlEdges` (Anml.py:122-130) accept any `Ste`, including one that is not in the network, and the document then names an element it does not contain. `Automata.Anml.Closed` is therefore not a guarantee: the edge methods keep it only when their targets are already in the network.
- The `isinstance` and `type` assertions (Anml.py:56, 70) become static types. A neighbour is always a `Ste`, and `str()` always returns a string.
- `PyStr.Str` covers `str()` only for integers, strings and `None`. Other Python values passed as `anmlId` or `reportCode` are not modelled. A missing `anmlId`, which raises `KeyError`, cannot occur because the parameter is required. An explicit `reportCode=None` is `Some(PyNone)`: line 58 tests only whether the keyword is present, so it writes `reportcode="None"`.
- `PyStr.Str` has no upper bound on integers. Python 3.11 and later, and the 3.7-3.10 security releases, refuse `str()` of an integer with more than 4300 decimal digits (`ValueError`, the `sys.set_int_max_str_digits` limit). So `anmlId` or `reportCode` that large raises at Anml.py:54 or 59, while the model builds the state. `PyStr.IntRoundTrip` and the other `str()` lemmas speak of the model's unbounded `str()`.
- `Automata.Anml.WithId` takes the network id as a string. Anml.py:101 stores `aId` without `str()`, so `Anml(aId=1)` is accepted, and `__str__` then raises `TypeError` at line 107 when it concatenates the id. That error path is not modelled.
- `Automata.Ste.constructor` models `match` as a `bool`. Python would store whatever value is passed.
- `Automata.Ste.constructor` copies the character class as a value. Anml.py:48 keeps a reference to the list passed in, and line 81 joins it only when `__str__` runs. In Python, a caller that changes that list after `AddSTE` therefore changes the text. That aliasing is not modelled.
- `Automata.Ste.constructor` takes the character class as `seq<string>`, so tokens that are not strings are excluded by the type. In Python, `AddSTE` accepts a list such as `[1, 2]`, and `__str__` then raises `TypeError` at Anml.py:81 in `''.join`; that error path is not modelled.
- `Automata.Ste.AddEdges` takes its argument as a value. In Python, for a state with at least one neighbour, `ste.add_edges(ste.neighbors_)` iterates over the list it is appending to and never ends: the list grows until memory runs out. For a state with no neighbours the loop runs zero times, as in the model. That aliasing is not modelled.
- Nothing in the source escapes the character class, the ids or the report code. The round-trip lemmas therefore require that no field holds a double quote. `MarkupParse.QuoteMakesTextAmbiguous` shows what goes wrong otherwise.
- Symbol-set sanitisation, the `start-of-data` start kind, and coupling between the report code and the match flag are not in this code, so the model does not have them. In the code, the report child depends only on `reportCode_`, and `ALL_INPUT` is the only start kind.
