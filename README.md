# Project-configuration loader, modelled in Dafny

The deployment project reads one JSON file, `project-config.json`, once at
start-up. `loadProjectConfig` in `config/index.js` is the fail-fast gate in
front of everything else. It reads and parses the file. It validates the
result against a Zod schema: a discriminated union on `codePipeline` over a
shared base of `projectId`, `codeArtifact`, `midway` and `accounts`. It then
insists that `accounts` holds a `prod` stage. After that it returns the
parsed document, or it prints a red diagnostic and exits with status 1.

The model has four modules.

- `JsonValue` (`json.dfy`): the parsed document (`Json`). `undefined`, what
  a missing key reads as in JavaScript, is `None`. JavaScript truthiness is
  `Truthy`.
- `Schema` (`schema.dfy`): the Zod combinators the file uses, as a datatype.
  `Accepts` gives their meaning: `safeParse(v).success`. The combinators are
  `z.string()` with `min`, `max`, `length` and `refine`, `z.boolean()`,
  `z.literal`, `.optional()`, `z.record`, `z.object` (not strict, so extra
  keys are ignored) and `z.discriminatedUnion`.
- `ProjectConfig` (`config.dfy`): `PresetStageType`, and the schema written
  as data the way the source assembles it (`BaseShape` is spread into both
  options). Beside the schema it states the same rules directly as
  predicates (`ValidProjectId`, `ValidAccount`, `ValidConfig`, ...). Lemmas
  prove the schema accepts exactly what the predicates describe.
- `Loader` (`loader.dfy`): `Load` maps the outcome of reading and parsing to
  a validated document or one of three fatal errors: `MissingFile`,
  `Malformed`, `MissingProd`. Lemmas state the error precedence, soundness,
  the pipeline discriminator rules, and insensitivity to stages other than
  `prod` and to unknown keys.
- `Scenarios` (`scenarios.dfy`): concrete identifiers and documents.

Notes on the code:

- The `projectId` rule at `config/index.js:52` is a blacklist of 32
  characters. The message at line 53 says "only alphabets except '-'", but
  digits, tab and non-ASCII letters all pass (`DigitAccepted`, `TabAccepted`,
  `NonAsciiLetterAccepted`). Every letters-and-hyphen identifier of the right
  length passes as well, and so does one that also has digits
  (`AlnumAndHyphenAccepted`). The model follows the
  code, not the message.
- `codeArtifact` and `midway` are required booleans. A document that has
  `projectId`, `codePipeline: false` and a valid `prod` account, but leaves
  those two out, is malformed (`BooleansRequired`).
- The `prod` check at line 95 is JavaScript truthiness of `accounts.prod`.
  Once the schema has passed, every account is an object. So the check is
  the same as `"prod" in accounts` (`LoadDecision`).
- `.optional()` accepts only an absent key. A key present with `null` fails
  a string schema, and `Accepts` models it that way.

## Model

| member | source | states |
|---|---|---|
| `JsonValue.Get` | multi-agent-orchestration-on-aws/config/index.js:95 | reading a key yields a value exactly when the object has that key, and then the value stored there; otherwise `undefined` |
| `JsonValue.Truthy` | multi-agent-orchestration-on-aws/config/index.js:95 | the `!` test: `undefined` and `null` are falsy, every object and array is truthy (so, after the schema, `accounts.prod` is truthy iff present: `Loader.LoadDecision`) |
| `Schema.Accepts` | multi-agent-orchestration-on-aws/config/index.js:47-79 | `safeParse(v).success` for the combinators used; only `.optional()` accepts `undefined`, no schema accepts `null`, object, record and union schemas accept objects only; its meaning on the configuration schema is fixed by `ProjectConfig.ConfigSchemaMeaning` |
| `Schema.ChecksHold` | multi-agent-orchestration-on-aws/config/index.js:48-52 | a string passes `z.string()` with its chained checks iff every check holds |
| `Schema.FieldTag` | multi-agent-orchestration-on-aws/config/index.js:64-79 | a discriminator tag read off a shape is the literal of a field with that key |
| `Schema.SelectOption` | multi-agent-orchestration-on-aws/config/index.js:64 | the chosen option is the first whose literal equals the input's discriminator value; none is chosen when no literal matches |
| `Schema.AcceptsFieldsAppend` | multi-agent-orchestration-on-aws/config/index.js:66-78 | an object spread from two shapes accepts iff both shapes accept |
| `Schema.FieldTagAppend` | multi-agent-orchestration-on-aws/config/index.js:67-68 | a key the spread base shape does not mention keeps the tag the rest of the shape gives it |
| `Schema.AcceptsFieldsIgnoresOtherKeys` | multi-agent-orchestration-on-aws/config/index.js:66-78 | non-strict objects: changing a key outside the shape does not change acceptance |
| `ProjectConfig.StageKey` | multi-agent-orchestration-on-aws/config/index.js:41-45 | `PresetStageType`: `Dev` is the key `"dev"`, `Prod` the key `"prod"` that the check at line 95 reads |
| `ProjectConfig.SpreadKeysDistinct` | multi-agent-orchestration-on-aws/config/index.js:66-78 | no key repeats in either option, so the spread of the base shape into each option is a concatenation |
| `ProjectConfig.ForbiddenClassTest` | multi-agent-orchestration-on-aws/config/index.js:52 | the regular-expression test is true iff some character of the string is in the blacklisted class |
| `ProjectConfig.ProjectIdSchemaMeaning` | multi-agent-orchestration-on-aws/config/index.js:48-54 | `projectId` is accepted iff it is a string of length 5..15 with no blacklisted character |
| `ProjectConfig.AccountSchemaMeaning` | multi-agent-orchestration-on-aws/config/index.js:57-61 | an account is accepted iff it is an object with a 12-character string `number`, a string `region`, and `midwaySecretId` absent or a string |
| `ProjectConfig.AccountsSchemaMeaning` | multi-agent-orchestration-on-aws/config/index.js:57-61 | `accounts` is accepted iff it is an object whose every entry is a valid account |
| `ProjectConfig.GitlabLengthMeaning` | multi-agent-orchestration-on-aws/config/index.js:63 | a GitLab name is accepted iff it is a string of length 5..75 |
| `ProjectConfig.BaseShapeMeaning` | multi-agent-orchestration-on-aws/config/index.js:47-62 | the shared base shape accepts iff `projectId`, both booleans and `accounts` are valid |
| `ProjectConfig.TailMeaning` | multi-agent-orchestration-on-aws/config/index.js:68-70 | the pipeline tail accepts iff `codePipeline` is `true` and both GitLab names are valid; the other tail iff it is `false` and each name is absent or valid |
| `ProjectConfig.OptionTags` | multi-agent-orchestration-on-aws/config/index.js:66-78 | the two options are tagged `true` and `false` on `codePipeline` |
| `ProjectConfig.ConfigSchemaMeaning` | multi-agent-orchestration-on-aws/config/index.js:47-79 | the configuration schema accepts a document iff it satisfies the direct description `ValidConfig` |
| `Loader.Load` | multi-agent-orchestration-on-aws/config/index.js:80-100 | on success the result is exactly the parsed input, and it satisfies the whole schema and has a `prod` account |
| `Loader.ExitStatus` | multi-agent-orchestration-on-aws/config/index.js:85-98 | the exit status is 0 exactly when loading returns, 1 otherwise |
| `Loader.LoadDecision` | multi-agent-orchestration-on-aws/config/index.js:82-98 | read or parse failure gives MissingFile; otherwise an invalid document gives Malformed; otherwise no `prod` gives MissingProd; otherwise the document is returned |
| `Loader.LoadSucceedsIff` | multi-agent-orchestration-on-aws/config/index.js:89-99 | loading a parsed document succeeds iff it is valid and has `prod`, and returns that document |
| `Loader.MalformedBeforeMissingProd` | multi-agent-orchestration-on-aws/config/index.js:89-98 | an invalid document without `prod` reports Malformed, not MissingProd |
| `Loader.DiscriminatorRequired` | multi-agent-orchestration-on-aws/config/index.js:64 | a non-object, or a missing or non-boolean `codePipeline`, is Malformed |
| `Loader.PipelineRequiresGitlabNames` | multi-agent-orchestration-on-aws/config/index.js:66-71 | with `codePipeline: true`, a missing or out-of-bounds GitLab name is Malformed |
| `Loader.NoPipelineGitlabNamesOptional` | multi-agent-orchestration-on-aws/config/index.js:73-78 | with `codePipeline: false`, a valid base with `prod` and no GitLab names loads |
| `Loader.NoPipelineGitlabNamesStillBounded` | multi-agent-orchestration-on-aws/config/index.js:76-77 | with `codePipeline: false`, a present GitLab name outside 5..75 is Malformed |
| `Loader.OtherStagesIrrelevant` | multi-agent-orchestration-on-aws/config/index.js:94-95 | adding a valid account under a stage other than `prod` changes no outcome |
| `Loader.UnknownKeysTolerated` | multi-agent-orchestration-on-aws/config/index.js:66-78 | a key the schema does not name changes no outcome and is kept in the returned document |
| `Scenarios.AlnumAndHyphenAccepted` | multi-agent-orchestration-on-aws/config/index.js:48-54 | every identifier of 5..15 ASCII letters, digits and hyphens is accepted |
| `Scenarios.DigitAccepted` | multi-agent-orchestration-on-aws/config/index.js:52-53 | an identifier with a digit is accepted although a digit is not a letter |
| `Scenarios.TabAccepted` | multi-agent-orchestration-on-aws/config/index.js:52 | an identifier with a tab is accepted |
| `Scenarios.NonAsciiLetterAccepted` | multi-agent-orchestration-on-aws/config/index.js:52 | an identifier with a non-ASCII letter is accepted |
| `Scenarios.ForbiddenCharRejected` | multi-agent-orchestration-on-aws/config/index.js:52 | `my@project` and `my_project` are rejected |
| `Scenarios.LengthBoundsRejected` | multi-agent-orchestration-on-aws/config/index.js:50-51 | a 4-character and a 16-character identifier are rejected |
| `Scenarios.ProdAccountValid` | multi-agent-orchestration-on-aws/config/index.js:57-61 | a 12-digit number with a region is a valid account |
| `Scenarios.MinimalDocumentLoads` | multi-agent-orchestration-on-aws/config/index.js:80-100 | a minimal document without a pipeline and with a `prod` account loads unchanged |
| `Scenarios.DevOnlyIsMissingProd` | multi-agent-orchestration-on-aws/config/index.js:94-98 | the same document with only a `dev` account is MissingProd |
| `Scenarios.PipelineWithoutGitlabIsMalformed` | multi-agent-orchestration-on-aws/config/index.js:66-71 | a pipeline document without GitLab names is Malformed |
| `Scenarios.BadProjectIdIsMalformed` | multi-agent-orchestration-on-aws/config/index.js:52 | a forbidden character in `projectId` is Malformed, even with no `prod` account |
| `Scenarios.BooleansRequired` | multi-agent-orchestration-on-aws/config/index.js:55-56 | a document without `codeArtifact` and `midway` is Malformed |

## Left out

- Lines 1-40 of `config/index.js`: interop helpers generated by the TypeScript compiler, and the module imports.
- `fs.readFileSync` and `JSON.parse` (line 83): file I/O and a foreign parser. Their outcome is the input `ParseOutcome`: `Unreadable`, `Unparsable` or `Parsed(doc)`.
- `console.error` with `chalk.redBright`, the message texts, and `process.exit(1)` (lines 86-87, 91-92, 96-97): these are the returned `LoadError` values and `ExitStatus`, not output or termination.
- `path.join(__dirname, ...)` (line 46), the module-level value computed once at import (line 101), and the inline source map (line 102).
- Zod's issue lists and error messages: only whether `safeParse` succeeds is modelled. The schema's key-stripped output is not modelled either, because the loader returns the parsed input.
- String lengths count Dafny characters (Unicode scalar values). JavaScript counts UTF-16 code units, so a character outside the Basic Multilingual Plane counts 2 there and 1 here. The model assumes identifiers and names stay in that plane.
- `JSON.parse` accepts lone-surrogate escapes such as `"\uD800"`, and the blacklist would let such a string through as a `projectId` or GitLab name. A Dafny `string` cannot hold a lone surrogate, so such documents are outside the model.
- JSON numbers are exact reals. The validator never inspects them.
- Special object keys such as `__proto__` are ordinary keys in the model.
- `tools/cli/run-develop.js`: process and filesystem glue. It deletes a cache directory, ignoring errors, then runs the development entry point and propagates its exit status. There is no logic in it to model.
