# Webapp profiles, form binding and escaping in Dafny

A model of the data-handling core of the Webapp launcher:

- **Profiles** (`webapps/profiles.py`).
  - A profile is three option dictionaries: the window options (`CWConfig`), the start options (`StartConfig`) and the webview settings (`WebviewSetting`).
  - The sentinel `default` marks an option left to the library default.
  - `replace_default` and `annihilate_defconst` swap or strip that sentinel and the blacklisted keys.
  - `_dset` and `_dump` write a dictionary into an INI section and read it back.
    - Written: `"yes"`, `"no"` or `str(v)`.
    - Read back: a bool, an int or a string; the `"py:default"` placeholder is dropped.
  - `Profile.save`, `Profile.load` and `Profile.load_return` pick the keys that are written and name the three sections `name`, `name.start` and `name.common`. The keys of the last one are upper-cased on load.
- **Form helpers of the user interface** (`data/main.mjs`).
  - `collectFormData` builds a nested object from the slash-separated `data-bind` paths of the form elements.
  - `bindForm` writes a profile object into those elements.
  - `bound_buttons` splits each `data-action` attribute, parses `data-action-prevent`, and decides whether a click listener is attached.
- **The validation accumulator** (`webapps/validation.py`). It records failed checks only and projects them to dictionaries.
- **The `sn` escaper of the error toast** (`data/error.js`).

Layout:

| file | models |
|---|---|
| `wrappers.dfy` | `Option` and `Result` |
| `decimal.dfy` | Python's `str(int)` and `int(s)` on arbitrary integers; the numerals JavaScript writes for whole numbers below 2^53 |
| `text.dfy` | `split` on one separator, and ASCII `upper`/`lower` |
| `profiles.dfy` | the option values, `replace_default`, `annihilate_defconst`, and the codec of `_dset`/`_dump` for one option |
| `profile_store.dfy` | the ConfigParser as a class, `_dset`/`_dump` on sections, the NamedTuples, and the `Profile` class with save and load |
| `js_values.dfy` | the JavaScript values of the user interface code, their truthiness and `String(v)` |
| `form_binding.dfy` | `collectFormData` and `bindForm`; the elements are objects updated in place |
| `actions.dfy` | the decision of `bound_buttons` for each button |
| `validation.dfy` | `ValidateEntry` and the `Validation` class |
| `html_escape.dfy` | `sn` and its inverse |

Modelling choices:

- A Python dictionary is a `map<string, Value>`. The sentinel is the constructor `Value.Default`.
- An INI section is a `map<string, string>`.
- A ConfigParser is the class `ProfileStore.ConfigFile`. Its DEFAULT options and named sections are fields that `add_section` and `set` update. `set` lower-cases the option name, as ConfigParser's `optionxform` does.
- Reading the file from disk is a parameter: `stored` is the parse of the file, or `None` when the file does not exist.
- JavaScript values are one datatype, `JsValues.Json`, shared by the form helpers, the button decisions and `sn`. Objects in the form code are values of it. Form elements are instances of the class `FormBinding.Element`, whose `value` and `checked` the binder assigns.
- The module runs in strict mode, so writing a property into a string or boolean throws a `TypeError`. The model returns that error.

## Model

| member | source | states |
|---|---|---|
| Profiles.ReplaceDefault | webapps/profiles.py:109-115 | The copy has exactly the input's keys. Every sentinel becomes the replacement and every other value is unchanged. |
| Profiles.AnnihilateDefconst | webapps/profiles.py:118-129 | A key is dropped exactly when its value is the sentinel or `"py:default"`, when it is in `_DELOBJS_CW` or `_DELOBJS_S`, or, for the API, when it is in `_DELOBJS_API`. Surviving keys keep their values. |
| Profiles.DropListsDisjoint | webapps/profiles.py:47-50 | No API key is also a window or start blacklist key, so `annihilate_defconst` never deletes one key twice. |
| Profiles.Del | webapps/profiles.py:208 | `del d[k]` removes exactly k and keeps every other entry. Its precondition is the KeyError guard. |
| Profiles.EncodeOption | webapps/profiles.py:142-148 | None, False and the integer 0 are written as "no", True as "yes", a non-zero int as its numeral, and a string as itself. |
| Profiles.DecodeOption | webapps/profiles.py:154-166 | "no", "false" and "0" read as False, and "yes", "true" and "1" as True. Other digit runs read as ints. "py:default" is omitted, and every other text stays a string. |
| Profiles.RoundTrip | webapps/profiles.py:142-165 | Decoding an encoded value gives it back if and only if it is a bool, an int of at least 2, or a string that is not a boolean word, not all digits and not "py:default". |
| Profiles.LossyRoundTrip | webapps/profiles.py:142-165 | How the other values come back: None, False and 0 as False; 1 as True; a negative int as a string; boolean words as bools; digit strings as ints; "py:default" not at all. |
| Profiles.SentinelText | webapps/profiles.py:148-149 | A value is written as "py:default" only if it is that very string. |
| Decimal.ParseNatToString | webapps/profiles.py:148-161 | `int(str(n)) == n` for every natural number n. |
| Decimal.SingleDigitNumerals | webapps/profiles.py:154-160 | The numerals "0" and "1" are written only for zero and one. |
| Decimal.NatToString | webapps/profiles.py:148 | `str(n)` of a natural number is a run of digits with no leading zero, one digit exactly below ten. |
| Decimal.IntToString | webapps/profiles.py:148 | `str(i)` is non-empty, starts with '-' exactly for negatives, and is all digits otherwise. |
| Text.Split | data/main.mjs:27 | `split` gives at least one field, no field holds the separator, and a text without it is one field. |
| Text.JoinSplit | data/main.mjs:27 | Joining the fields of `split("/")` gives back the text. |
| Text.SplitJoin | data/main.mjs:27 | Splitting the joined separator-free fields gives back the fields. |
| Text.SplitPrefix | data/main.mjs:197 | A text without the separator, then the separator, then the rest, splits into that text followed by the split of the rest. |
| Text.UpperLower | webapps/profiles.py:256 | Upper-casing a lower-cased upper-case name restores it. |
| Text.UpperInjective | webapps/profiles.py:256 | `key.upper()` never merges two lower-case keys. |
| ProfileStore.ConfigFile.constructor | webapps/profiles.py:186 | A new parser holds no sections and no DEFAULT options. |
| ProfileStore.ConfigFile.Read | webapps/profiles.py:250-251 | The parser holds the parse of the file. |
| ProfileStore.ConfigFile.AddSection | webapps/profiles.py:218-220 | Adds an empty section. Fails on a duplicate name or on DEFAULT, leaving the file unchanged. |
| ProfileStore.ConfigFile.Set | webapps/profiles.py:143-148 | Writes the lower-cased option into the section, or into DEFAULT for "" or "DEFAULT". Fails on a missing section, leaving the file unchanged. |
| ProfileStore.Dset | webapps/profiles.py:139-148 | After `_dset` the section holds its old options overlaid with the encoding of every key, and nothing else in the file changes. A missing section fails at the first key with the file unchanged. |
| ProfileStore.EncodedInsert | webapps/profiles.py:140-148 | One more key written by `_dset` adds one more encoded option. |
| ProfileStore.SetStep | webapps/profiles.py:140-148 | One `set` inside `_dset`'s loop moves the file from one loop state to the next. |
| ProfileStore.Dump | webapps/profiles.py:151-166 | `_dump` keeps exactly the options whose text is not "py:default" and decodes each. A missing section raises KeyError. |
| ProfileStore.SectionRoundTrip | webapps/profiles.py:139-166 | Writing a lower-case-keyed section and dumping it: a key is lost only when its value is the string "py:default", no new key appears, and every round-trip-safe value comes back unchanged. |
| ProfileStore.CommonRoundTrip | webapps/profiles.py:254-259 | Upper-case webview settings, saved lower-cased and upper-cased again on load, come back under their own names. No other name appears. |
| ProfileStore.LowerCaseDistinct | webapps/profiles.py:143-148 | Lower-case keys are never merged by ConfigParser's lower-casing. |
| ProfileStore.UpperCaseDistinct | webapps/profiles.py:227 | Upper-case keys are never merged by ConfigParser's lower-casing. |
| ProfileStore.Instantiate | webapps/profiles.py:252-259 | Calling a NamedTuple succeeds exactly when no unknown keyword is given and every field without a default is; the result holds every field. |
| ProfileStore.WindowNamesLowerCase | webapps/profiles.py:52-78 | The window option names are lower-case. |
| ProfileStore.StartNamesLowerCase | webapps/profiles.py:81-97 | The start option names are lower-case. |
| ProfileStore.WebviewNamesUpperCase | webapps/profiles.py:100-106 | The webview setting names are upper-case. |
| ProfileStore.DeleteEach | webapps/profiles.py:207-211 | Deleting each blacklisted key removes exactly those keys. |
| ProfileStore.DropKeysAreFields | webapps/profiles.py:47-48 | Every key save deletes is a field of its NamedTuple and is listed once, so the deletes never raise KeyError. |
| ProfileStore.WrittenWellFormed | webapps/profiles.py:204-215 | What save hands to `_dset` holds no sentinel and no two keys that ConfigParser would merge. |
| ProfileStore.WrittenSectionContents | webapps/profiles.py:204-215 | Save writes one option per key outside the blacklist, the sentinel as "py:default", and nothing else. |
| ProfileStore.SaveThenItems | webapps/profiles.py:217-227 | For a new profile, save writes the three sections `name`, `name.start` and `name.common`, each holding exactly what `_dset` encoded; that is what load reads back. |
| ProfileStore.WriteThreeSections | webapps/profiles.py:225-227 | Three `_dset` calls into three distinct empty sections fill each with its encoding. |
| ProfileStore.ProfileSectionNames | webapps/profiles.py:218-220 | The three section names of a profile are distinct, and none is DEFAULT. |
| ProfileStore.PrepareNew | webapps/profiles.py:217-220 | For a profile the file lacks, the three sections are added empty. |
| ProfileStore.WriteEmptySection | webapps/profiles.py:225-227 | `_dset` into an empty section leaves exactly the encoded options there. |
| ProfileStore.PreparedReached | webapps/profiles.py:217-220 | The file after the `add_section` calls that ran, also when one raises: the DEFAULT options and every existing section are unchanged, and the only sections added are empty ones named `name`, `name.start` or `name.common`. |
| ProfileStore.PrepareSections | webapps/profiles.py:217-220 | The sections are added only when the profile's own section is missing. On a failure the error is returned and the sections added before it stay. |
| ProfileStore.WrittenReached | webapps/profiles.py:225-227 | The file after the `_dset` calls that ran, also when one raises: no section is added or removed, and only the profile's three sections can change. |
| ProfileStore.WriteSections | webapps/profiles.py:225-227 | The three `_dset` calls, in order; the first failure ends save, and what the earlier calls wrote stays in the file. |
| ProfileStore.UpperKeys | webapps/profiles.py:254-259 | Every lower-case key reappears upper-cased with its value, and no other key appears. |
| ProfileStore.ItemsOf | webapps/profiles.py:153 | The options of a section of a well-formed file have lower-case names. A missing section is a KeyError. |
| ProfileStore.DecodedItemsLowerCase | webapps/profiles.py:256-257 | The keys `_dump` returns from a well-formed file are lower-case. |
| ProfileStore.Profile.constructor | webapps/profiles.py:177-186 | A new profile holds `CWConfig(name or title, url=url)`, `StartConfig(private_mode=False, storage_path=dir)` and the default webview settings, with an empty parser. |
| ProfileStore.SaveReached | webapps/profiles.py:217-227 | The file save leaves, whether it fails or not: the saved file on success, the partly prepared file when an `add_section` raises. Sections other than the profile's three are never touched, and no other section is added. |
| ProfileStore.Profile.Save | webapps/profiles.py:198-227 | The file after save is the file with the three sections added (if the profile's own is missing) and written from the dictionaries without the blacklisted keys, sentinels as "py:default". On a failure the error is returned and the file keeps what the earlier calls did. |
| ProfileStore.Profile.Load | webapps/profiles.py:245-261 | Without a file, load gives the new profile. With one, it gives the three NamedTuples built from the dumped sections (webview keys upper-cased) and the parser that read the file. A KeyError or TypeError escapes. |
| ProfileStore.Profile.LoadFile | webapps/profiles.py:249-260 | The branch of load for an existing file. |
| ProfileStore.Profile.Replace | webapps/profiles.py:252-260 | The profile's options and parser become those read. |
| ProfileStore.ReadProfileSections | webapps/profiles.py:252-259 | The three dumps and NamedTuple calls of load, in order; the first error ends load. |
| ProfileStore.LoadReturn | webapps/profiles.py:263-271 | `load_return` gives "app", "start" and "config", each the loaded dictionary through `annihilate_defconst(..., True)`. |
| FormBinding.Element.constructor | data/main.mjs:26 | An element holds its type, its bind path, its value and its checked state. |
| FormBinding.Snapshots | data/main.mjs:26 | One snapshot per element, in document order. |
| FormBinding.Path | data/main.mjs:27 | The split of a `data-bind` attribute is never empty. |
| FormBinding.SetPath | data/main.mjs:31-43 | The walk of one element adds at most its first segment to the object and leaves every other entry alone. |
| FormBinding.Collected | data/main.mjs:17-48 | The collected object has exactly the seed's keys and the elements' first segments. |
| FormBinding.CollectFormData | data/main.mjs:17-48 | `collectFormData` is the walks of the elements in document order from the seed object; a thrown TypeError ends it. |
| FormBinding.CollectElement | data/main.mjs:27-43 | The callback for one element is the walk of its path with its leaf. |
| FormBinding.CollectedStep | data/main.mjs:26 | Collecting one more element is one more walk, and a failure stays a failure. |
| FormBinding.CollectedFailureSticks | data/main.mjs:26 | Once a walk throws, collection throws. |
| FormBinding.SetThenAt | data/main.mjs:35-37 | After a walk its leaf is found at its path: `checked` for a checkbox, the raw `value` otherwise. |
| FormBinding.SetKeepsAt | data/main.mjs:38-42 | A walk leaves every entry whose path is not a prefix or extension of its own unchanged; existing intermediate objects are reused. |
| FormBinding.SetKeepsSettable | data/main.mjs:38-42 | A later walk still succeeds unless an earlier one stored its leaf on the later walk's way. |
| FormBinding.EmptySettable | data/main.mjs:40 | Missing intermediate keys are created as empty objects, so every walk into an empty object succeeds. |
| FormBinding.SeedSettable | data/main.mjs:18-24 | Every walk from the seed object succeeds. |
| FormBinding.CollectedSettable | data/main.mjs:26-43 | A path on which no earlier element stored a leaf can still be walked. |
| FormBinding.CollectSucceeds | data/main.mjs:26-43 | Collection succeeds when no element's path runs through an earlier element's leaf. |
| FormBinding.CollectedAt | data/main.mjs:26-37 | An element's leaf is found at its path unless a later element's path is related; of two elements on one path the later wins. |
| FormBinding.SeedSurvives | data/main.mjs:18-24 | The seed entries survive every element whose path starts elsewhere. |
| FormBinding.Get | data/main.mjs:166-168 | `value[key]` throws only on null, finds exactly an object's own keys, and is undefined on numbers and booleans. |
| FormBinding.StringToNumber | data/main.mjs:179 | `Number(s)` gives the value of a digit run, and NaN for a text that is neither empty, signed nor digits. |
| FormBinding.NumberInputText | data/main.mjs:179 | A number input keeps the numeral of a number and is empty exactly for NaN. |
| FormBinding.InputText | data/main.mjs:182 | A value setter keeps a string as is and makes null empty. |
| FormBinding.Assign | data/main.mjs:173-183 | A checkbox gets `Boolean(value)`, a number input `Number(value)`, any other element the value itself; the rest of the element is unchanged. |
| FormBinding.FirstThrow | data/main.mjs:160-166 | The first element whose walk throws, with no throw before it. |
| FormBinding.BoundFields | data/main.mjs:159-185 | One element per element: those before the first throw are bound, the rest untouched. |
| FormBinding.BindForm | data/main.mjs:159-185 | `bindForm` throws exactly when some walk reads a property of null. Every element before the first throw is written when its whole path is found and left alone otherwise; the rest keep their attributes. |
| FormBinding.BindStep | data/main.mjs:160-184 | One iteration binds only its own element. |
| FormBinding.BindElement | data/main.mjs:160-184 | The callback for one element writes the found value, or leaves the element alone when a segment is undefined. |
| FormBinding.BoundFieldsAt | data/main.mjs:160 | Elements bound up to the first throw and untouched after it are the bound elements. |
| FormBinding.FirstThrowUnique | data/main.mjs:160-166 | The first throwing walk is the only index with no throw before it and a throw at it. |
| FormBinding.BindThenCollect | data/main.mjs:83-91 | Binding a profile whose paths are all found and unrelated, then collecting, succeeds. It stores at each path the profile's string for an ordinary element and its truthiness for a checkbox. |
| Actions.ParseAction | data/main.mjs:197 | The action holds no colon. The argument is present exactly when the attribute has a colon, and holds no colon. |
| Actions.ParseFormatAction | data/main.mjs:197 | Splitting "action:arg" gives back the action and the argument. |
| Actions.ArgumentStopsAtColon | data/main.mjs:197 | Only the text before a second colon is the argument. |
| Actions.ColonInJoin | data/main.mjs:197 | More than one field means the attribute had a colon. |
| Actions.ParseStringify | data/main.mjs:198 | JSON.parse of what JSON.stringify writes gives the value back. |
| Actions.ParseStringifyNumber | data/main.mjs:198 | JSON.parse reads back every whole-number numeral. |
| Actions.ParseStringifyString | data/main.mjs:198 | JSON.parse reads back a quoted string without escapes. |
| Actions.DecideWith | data/main.mjs:197-209 | A button fails exactly when its prevent attribute is not JSON. Otherwise a listener is attached exactly when the lookup finds the action, with the argument and the truthiness of the prevent value. |
| Actions.InheritedNameAttaches | data/main.mjs:201 | A button "toString" gets a listener as written and a warning as intended. |
| Actions.ToStringInherited | data/main.mjs:50-152 | "toString" is inherited by the table and is not one of its actions. |
| Actions.AttachOnlyKnown | data/main.mjs:201-209 | With the intended lookup, a listener is attached exactly for the table's actions. |
| Actions.PreventByDefault | data/main.mjs:198 | A missing or empty prevent attribute means the default action is prevented. |
| Actions.PreventWords | data/main.mjs:198-204 | "true" prevents; "false", "null" and "0" do not. |
| Actions.BoundButtons | data/main.mjs:191-212 | A null base raises ValueError. Otherwise the buttons are decided in order; a SyntaxError ends the call at the first failing button, and the earlier buttons keep their decisions. The lookup is a parameter: `PrototypeChain` is the code as written, `OwnKeys` the intended lookup of the Findings. |
| Actions.DecideButton | data/main.mjs:197-209 | The callback for one button makes the decision `DecideWith` gives for the chosen lookup. |
| Actions.ToStringButton | data/main.mjs:197-198 | A button whose attribute is "toString" has that action, no argument, and a prevent value of `true`. |
| Validation.DictRoundTrip | webapps/validation.py:4-8 | `_asdict()` has exactly the keys condition, of and message, and reading them back gives the entry. |
| Validation.FromJson | webapps/validation.py:20-22 | Reading entries back from dictionaries keeps the number of entries. |
| Validation.Validation.constructor | webapps/validation.py:12-13 | A new accumulator holds no entries. |
| Validation.Validation.Set | webapps/validation.py:15-18 | A passed check changes nothing. A failed one appends exactly `(False, of, message)` at the end, and every stored entry is a failure. |
| Validation.Validation.ToJson | webapps/validation.py:20-22 | One dictionary per entry, in order, and it reads back as the stored entries; nothing is changed. |
| Validation.ToJsonRoundTrip | webapps/validation.py:20-22 | The dictionaries of `to_json` describe exactly the stored entries, in order. |
| HtmlEscape.Entity | data/error.js:12-19 | Each replacement is a character reference from '&' to ';' holding none of the unsafe characters. |
| HtmlEscape.EscapeChar | data/error.js:20-22 | A special character becomes its reference; any other stays as it is. |
| HtmlEscape.Escape | data/error.js:20-22 | The output is at least as long as the input and holds none of `< > " ' /`. A text without special characters is unchanged. |
| HtmlEscape.EscapeConcat | data/error.js:20-22 | Escaping works character by character: it distributes over concatenation. |
| HtmlEscape.ReferenceOfEntity | data/error.js:12-19 | The first reference a decoder finds in front of a replacement is that replacement. |
| HtmlEscape.NoReferenceAt | data/error.js:12-19 | No reference starts with a character other than '&'. |
| HtmlEscape.UnescapeEscape | data/error.js:20-22 | Decoding the escaped text gives back the original: no character is lost, changed or reordered. |
| HtmlEscape.Sn | data/error.js:11-24 | `sn` gives "null" for undefined and null. Otherwise it gives the escaped text of the argument: a string itself, `String(v)` of another value, or what an object's own `toString()` returns (for an Error, its name and message). That output decodes back to the text and holds no unsafe character. |

## Left out

- Disk and process effects of `webapps/profiles.py` are not modelled:
  - the directories made at import and by `Profile.__init__`;
  - the existence test of the config file (it is the `stored` parameter);
  - ConfigParser's reading and writing of INI text (the parse is given; the text is never produced);
  - the launcher scripts, `load_missing`, and the `print` calls.
- Values other than the sentinel, None, bools, whole numbers and strings are not modelled: floats, lists, dicts and callables. For the options the NamedTuples declare with such types, `str(v)` and its read-back are left out.
- Decimal.ParseDigits: `str.isnumeric` is modelled on ASCII digits only. Non-ASCII numerals (for which `int()` can raise) are left out.
- Text.Upper: `str.upper` and ConfigParser's `str.lower` are modelled on ASCII letters only.
- FormBinding.StringToNumber: only whole numbers are modelled, without surrounding whitespace, exponents, decimals, hexadecimal or "Infinity". Such texts give NaN in the model.
- FormBinding.Get: on a string, only `length` and index keys are found. Other inherited members of strings, of Number.prototype and Boolean.prototype (`toFixed`, `toPrecision`, `valueOf` and so on) and of Object.prototype are treated as undefined. JavaScript counts a string's `length` and indices in UTF-16 code units, while the model counts characters, so the two differ for characters outside the Basic Multilingual Plane.
- JsValues.Json: numbers are exact whole numbers. Doubles are not modelled: there is no rounding beyond 2^53, no fractions, no negative zero and no infinities.
- JsValues.ToJsString: `String(n)` is the plain numeral of n. JavaScript switches to exponent form from 1e21 ("1e+21"), and a double beyond 2^53 is already rounded; neither is modelled.
- FormBinding.NumberInputText: the numeral kept is that of an exact whole number, so it agrees with the browser only for whole numbers below 2^53 and has no exponent form.
- HtmlEscape.Sn: a number argument is escaped as its exact numeral, with the same limits as `JsValues.ToJsString`. A thrown plain object is written as "[object Object]"; arrays, functions, symbols and bigints are not modelled.
- FormBinding.Descend: `current[key] || {}` on a plain object of the collected form only sees own entries. A path segment naming an inherited member such as "toString" is not modelled.
- FormBinding.InputText: the value setters' own sanitising for input types other than number (date, color, range and so on) is not modelled. A `select` whose value is not one of its options is not modelled either.
- Actions.ParseJson: JSON.parse is modelled on literals, whole numbers and strings without escapes. Arrays, objects, fractions, exponents, escapes and surrounding whitespace give a SyntaxError in the model.
- The action handlers themselves (async calls to the host, modals, navigation), the listener registration and `setLog` are not modelled; only the decision to attach is.
- The edit flow's assignment of `profile_new.name` and its `patch_profile` call are not modelled.
- `data/init.mjs`, `data/cookies.mjs`, `data/types.mjs`, `main.py` and `webapps/webui/` are not part of this model. Neither are the toast DOM and the window error handlers of `data/error.js`.

## Findings

| source | as written | input that shows it | evidently intended | confidence | as-written member | corrected member |
|---|---|---|---|---|---|---|
| data/main.mjs:201 | `ACTIONS[action]` is a property read, so it also finds the members every object inherits from Object.prototype. | A button with `data-action="toString"` gets a click listener that calls `Object.prototype.toString`. | Only the table's own actions get a listener; any other name gets the warning. | medium, not executed | Actions.InheritedNameAttaches | Actions.AttachOnlyKnown |
