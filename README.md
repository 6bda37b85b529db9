# omni: format enumeration

omni converts one structured-data document between JSON, YAML and TOML. This
project models the part of it with self-contained logic: the `Format`
enumeration of `src/format.rs`, its parser from a textual token
(`FromStr::from_str`, used for the `--in-format`/`--out-format` values) and its
printer back to the canonical name (`Display::fmt`).

Everything lives in module `Formats` (`format.dfy`):

- `Format` is the closed enumeration `JSON | YAML | TOML`.
- `Parse` is `from_str`: it returns `Ok(format)` or `Err(UnknownFormat(token))`;
  `Message` is the text `anyhow!` builds for that error.
- `Name` is `fmt`: the `write!` into the formatter only emits the name, so it is
  a function returning the string.
- `Tokens` and `Aliases` are the reference sets the contracts are stated
  against: all accepted tokens, and the tokens that denote one format.
- `from_str` matches tokens exactly, so case matters: `"JSON"` and `"Yml"` are
  rejected. `ParseIgnoringCase` is an ASCII case-folding reading of the same
  table, kept for comparison; `ParseVersusIgnoringCase` states exactly where
  the two readings differ.

## Model

| member | source | states |
|---|---|---|
| `Formats.Parse` | src/format.rs:15-21 | a token is accepted exactly when it is one of "json", "yaml", "yml", "toml"; an accepted token is an alias of the format returned; a rejected token is reported as `UnknownFormat` carrying that token |
| `Formats.Name` | src/format.rs:26-32 | the printed name is one of the format's own tokens, is never the alias "yml", and is four lower-case ASCII letters |
| `Formats.ParseJson` | src/format.rs:17 | "json" parses to JSON |
| `Formats.ParseYamlAliases` | src/format.rs:18 | "yaml" and "yml" both parse to YAML, so two distinct tokens parse to the same format and parsing is not injective |
| `Formats.ParseToml` | src/format.rs:19 | "toml" parses to TOML |
| `Formats.ParseIffAlias` | src/format.rs:16-20 | a token parses to format f if and only if it is in f's alias set |
| `Formats.ParseRejectsOthers` | src/format.rs:20 | every token outside the four accepted ones fails with `UnknownFormat` of that token |
| `Formats.ParseRejectsExamples` | src/format.rs:16-20 | "JSON", "Yml", "YAML", "Toml" and the empty token are all rejected |
| `Formats.ParseRejectsUpper` | src/format.rs:16-20 | the match is case-sensitive: any token containing an upper-case ASCII letter is rejected |
| `Formats.Message` | src/format.rs:20 | the error text is the prefix "Unknown format: " followed by the rejected token, and nothing else |
| `Formats.MessageInjective` | src/format.rs:20 | two error messages are equal if and only if the rejected tokens are equal, so the message identifies the token |
| `Formats.NameValues` | src/format.rs:27-31 | JSON, YAML and TOML print as "json", "yaml" and "toml" |
| `Formats.ParseName` | src/format.rs:16-31 | for every format, parsing its printed name succeeds and returns that format |
| `Formats.NameInjective` | src/format.rs:27-31 | two formats print the same name if and only if they are the same format |
| `Formats.NameParse` | src/format.rs:16-31 | printing a parsed token gives the token back, except that "yml" comes back as its canonical name "yaml" |
| `Formats.ParseVersusIgnoringCase` | src/format.rs:16-20 | the exact match disagrees with a case-insensitive match exactly on tokens that contain an upper-case letter and fold to an accepted token |

## Left out

- `main` in src/main.rs: reading the input file or standard input and writing the output file or standard output are I/O.
- `to_value` and the output `match` in src/main.rs: parsing and serialising are calls into the `serde_json`, `serde_yaml` and `toml` libraries, whose grammars and errors are not part of this model; the type-erased value they return has no structure to model.
- `args.validate()` (src/main.rs:11) is called but not defined in src/main.rs, src/cli.rs, src/format.rs or build.rs, so no format resolver is modelled.
- src/cli.rs: a derived command-line options struct with four optional fields and no logic.
- build.rs: man-page and shell-completion generation, which is build tooling and file I/O.
- `Message`: only the text of the error is modelled, not the `anyhow::Error` value or its backtrace.
