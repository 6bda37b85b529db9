/** The data formats the converter reads and writes, the parser from a
    command-line token to a format and the printer from a format back to its
    canonical name (src/format.rs). */
module Formats {

  /** The three supported serialization formats. */
  datatype Format = JSON | YAML | TOML

  /** Success or failure, as Rust's `Result`. */
  datatype Result<T, E> = Ok(value: T) | Err(error: E)

  /** The only way parsing a token fails: the token names no format. */
  datatype FormatError = UnknownFormat(token: string)

  /** Every token the parser accepts. */
  const Tokens: set<string> := {"json", "yaml", "yml", "toml"}

  /** The tokens that denote one format: its canonical name and, for YAML, the
      short alias used as a file extension. */
  function Aliases(f: Format): set<string> {
    match f
    case JSON => {"json"}
    case YAML => {"yaml", "yml"}
    case TOML => {"toml"}
  }

  /** Token to format. The match is exact, so it is case-sensitive: "JSON"
      and "Yml" are unknown formats. */
  function Parse(s: string): (r: Result<Format, FormatError>)
    ensures r.Ok? <==> s in Tokens
    ensures r.Ok? ==> s in Aliases(r.value)
    ensures r.Err? ==> r.error == UnknownFormat(s)
  {
    match s
    case "json" => Ok(JSON)
    case "yaml" | "yml" => Ok(YAML)
    case "toml" => Ok(TOML)
    case _ => Err(UnknownFormat(s))
  }

  /** Format to its canonical name, as printed by `Display`. */
  function Name(f: Format): (r: string)
    ensures r in Aliases(f)
    ensures r != "yml"
    ensures |r| == 4 && forall i :: 0 <= i < |r| ==> 'a' <= r[i] <= 'z'
  {
    match f
    case JSON => "json"
    case YAML => "yaml"
    case TOML => "toml"
  }

  const MessagePrefix: string := "Unknown format: "

  /** The text of the error reported for a rejected token. */
  function Message(e: FormatError): (r: string)
    ensures |r| == |MessagePrefix| + |e.token|
    ensures r[..|MessagePrefix|] == MessagePrefix && r[|MessagePrefix|..] == e.token
  {
    MessagePrefix + e.token
  }

  // ---------------------------------------------------------------------------
  // Accepted tokens

  lemma ParseJson()
    ensures Parse("json") == Ok(JSON)
  {
  }

  /** "yaml" and its alias "yml" both denote YAML, so parsing is not injective. */
  lemma ParseYamlAliases()
    ensures Parse("yaml") == Ok(YAML) && Parse("yml") == Ok(YAML)
    ensures exists s, t :: s != t && Parse(s).Ok? && Parse(s) == Parse(t)
  {
    assert "yaml" != "yml" && Parse("yaml") == Parse("yml");
  }

  lemma ParseToml()
    ensures Parse("toml") == Ok(TOML)
  {
  }

  /** A token parses to a format exactly when it is one of that format's aliases. */
  lemma ParseIffAlias(s: string, f: Format)
    ensures Parse(s) == Ok(f) <==> s in Aliases(f)
  {
  }

  // ---------------------------------------------------------------------------
  // Rejected tokens

  /** Every token outside the four accepted ones is reported as unknown. */
  lemma ParseRejectsOthers(s: string)
    requires s !in Tokens
    ensures Parse(s) == Err(UnknownFormat(s))
  {
  }

  /** Upper-case and mixed-case spellings and the empty token are rejected. */
  lemma ParseRejectsExamples()
    ensures Parse("JSON").Err? && Parse("Yml").Err? && Parse("YAML").Err?
    ensures Parse("Toml").Err? && Parse("").Err?
  {
  }

  predicate IsUpper(c: char) {
    'A' <= c <= 'Z'
  }

  predicate HasUpper(s: string) {
    exists i :: 0 <= i < |s| && IsUpper(s[i])
  }

  /** Matching is case-sensitive: a token with any upper-case letter is rejected. */
  lemma ParseRejectsUpper(s: string)
    requires HasUpper(s)
    ensures Parse(s) == Err(UnknownFormat(s))
  {
  }

  /** Distinct rejected tokens yield distinct error messages: the message
      identifies the offending token. */
  lemma MessageInjective(e1: FormatError, e2: FormatError)
    ensures Message(e1) == Message(e2) <==> e1 == e2
  {
  }

  // ---------------------------------------------------------------------------
  // Printing

  lemma NameValues()
    ensures Name(JSON) == "json" && Name(YAML) == "yaml" && Name(TOML) == "toml"
  {
  }

  /** Printing then parsing gives back the format. */
  lemma ParseName(f: Format)
    ensures Parse(Name(f)) == Ok(f)
  {
  }

  /** Distinct formats print differently. */
  lemma NameInjective(f: Format, g: Format)
    ensures Name(f) == Name(g) <==> f == g
  {
  }

  /** Parsing then printing normalises the token: the canonical name comes
      back, except that the alias "yml" comes back as "yaml". */
  lemma NameParse(s: string)
    requires Parse(s).Ok?
    ensures Name(Parse(s).value) == (if s == "yml" then "yaml" else s)
  {
  }

  // ---------------------------------------------------------------------------
  // Exact matching against a case-insensitive reading

  function LowerChar(c: char): (d: char)
    ensures !IsUpper(d)
    ensures IsUpper(c) ==> d != c
    ensures !IsUpper(c) ==> d == c
  {
    if IsUpper(c) then (c as int + ('a' as int - 'A' as int)) as char else c
  }

  /** The token with its ASCII upper-case letters folded to lower case. */
  function Lower(s: string): (t: string)
    ensures |t| == |s| && !HasUpper(t)
  {
    seq(|s|, i requires 0 <= i < |s| => LowerChar(s[i]))
  }

  /** A parser that ignores ASCII case, reporting the token as given. */
  function ParseIgnoringCase(s: string): Result<Format, FormatError> {
    match Parse(Lower(s))
    case Ok(f) => Ok(f)
    case Err(_) => Err(UnknownFormat(s))
  }

  /** The exact match differs from a case-insensitive one on precisely the
      tokens that contain an upper-case letter and fold to an accepted token. */
  lemma ParseVersusIgnoringCase(s: string)
    ensures Parse(s) != ParseIgnoringCase(s) <==> HasUpper(s) && Lower(s) in Tokens
  {
    if !HasUpper(s) {
      assert Lower(s) == s;
    }
  }
}
