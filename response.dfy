/** `parse_response`: cleaning the language model's answer and reading the
    commit message and branch name out of it. Decoding JSON text is a parameter:
    the grammar itself is not part of this model. */
module Response {
  import opened PyText
  import opened Json

  const JSON_FENCE := "```json"
  const FENCE := "```"

  /** The answer after cleaning: stripped, without a leading "```json" (seven
      characters), without a trailing "```", and stripped again. */
  function Normalize(raw: string): (r: string)
    ensures IsStripped(r)
    ensures |r| <= |raw|
  {
    var s1 := Strip(raw);
    var s2 := if StartsWith(s1, JSON_FENCE) then s1[|JSON_FENCE|..] else s1;
    var s3 := if EndsWith(s2, FENCE) then s2[..|s2| - |FENCE|] else s2;
    Strip(s3)
  }

  /** What `parse_response` gives back: a (commit message, branch name) pair,
      where `JNull` is `None`, or an exception that escapes it. */
  datatype Parsed =
    | Returned(commitMessage: JsonValue, branchName: JsonValue)
    | Raised(error: PyError)

  /** `data["commit_message"]` and `data.get("branch_name")` on the decoded answer. */
  function Interpret(decoded: Decoded, branch: bool): (r: Parsed)
    // Text that is not JSON gives (None, None).
    ensures decoded.DecodeError? ==> r == Returned(JNull, JNull)
    // JSON that is not an object, or an object without "commit_message",
    // escapes as an exception: KeyError for the object, TypeError otherwise.
    ensures r.Raised? <==> decoded.Decoded? && !(decoded.value.JObject? && "commit_message" in decoded.value.fields)
    ensures r.Raised? ==> (r.error == KeyError <==> decoded.value.JObject?)
    // Otherwise the message is whatever the object holds, unchecked (it may be
    // empty, null or not a string), and a branch name is read only when asked for.
    ensures r.Returned? && decoded.Decoded? ==>
      && r.commitMessage == decoded.value.fields["commit_message"]
      && (r.branchName != JNull ==> branch && "branch_name" in decoded.value.fields)
      && (branch && "branch_name" in decoded.value.fields ==> r.branchName == decoded.value.fields["branch_name"])
    ensures !branch && r.Returned? ==> r.branchName == JNull
  {
    match decoded
    case DecodeError => Returned(JNull, JNull)
    case Decoded(JObject(fields)) =>
      if "commit_message" in fields then
        Returned(fields["commit_message"], if branch && "branch_name" in fields then fields["branch_name"] else JNull)
      else Raised(KeyError)
    case Decoded(_) => Raised(TypeError)
  }

  /** `parse_response(raw, args)`, with `json.loads` given as `decode`. */
  function ParseResponse(raw: string, branch: bool, decode: string -> Decoded): Parsed {
    Interpret(decode(Normalize(raw)), branch)
  }

  /** A stripped text stays as it is under `strip()`. */
  lemma StripStripped(s: string)
    requires IsStripped(s)
    ensures Strip(s) == s
  {
    StripPadded([], s, []);
    EmptyLeft(s);
    EmptyRight(s);
  }

  /** A text inside a "```json" ... "```" fence, with any white space around the
      fence and between the fence and the text, comes out as the text. */
  lemma NormalizeUnfences(lead: string, open: string, s: string, close: string, trail: string)
    requires AllSpace(lead) && AllSpace(open) && AllSpace(close) && AllSpace(trail)
    requires IsStripped(s)
    ensures Normalize(lead + JSON_FENCE + open + s + close + FENCE + trail) == s
  {
    var body := open + s + close;
    var core := JSON_FENCE + body + FENCE;
    assert lead + JSON_FENCE + open + s + close + FENCE + trail == lead + core + trail;
    assert core[0] == '`' && core[|core| - 1] == '`';
    StripPadded(lead, core, trail);
    assert StartsWith(core, JSON_FENCE) by { PrefixOfAppend(JSON_FENCE, body + FENCE); }
    assert core[|JSON_FENCE|..] == body + FENCE;
    var s2 := body + FENCE;
    assert EndsWith(s2, FENCE);
    assert s2[..|s2| - |FENCE|] == body;
    StripPadded(open, s, close);
  }

  /** A stripped text that neither starts with "```json" nor ends with "```"
      comes out unchanged, whatever white space surrounds it. */
  lemma NormalizeKeepsPlain(lead: string, s: string, trail: string)
    requires AllSpace(lead) && AllSpace(trail) && IsStripped(s)
    requires !StartsWith(s, JSON_FENCE) && !EndsWith(s, FENCE)
    ensures Normalize(lead + s + trail) == s
  {
    StripPadded(lead, s, trail);
    StripStripped(s);
  }

  /** Normalize on a text that `strip()` leaves alone and that does not start
      with "```json" but ends with "```": the rest, stripped. */
  lemma NormalizeClosingOnly(raw: string)
    requires IsStripped(raw) && !StartsWith(raw, JSON_FENCE) && EndsWith(raw, FENCE)
    ensures Normalize(raw) == Strip(raw[..|raw| - |FENCE|])
  {
    StripStripped(raw);
  }

  /** A bare "```" fence is not the one that is removed: its opening line stays
      in front of the text (only the closing "```" goes). */
  lemma NormalizeKeepsBareFence(s: string)
    requires IsStripped(s) && s != ""
    ensures Normalize(FENCE + "\n" + s + "\n" + FENCE) == FENCE + "\n" + s
  {
    var kept := FENCE + "\n" + s;
    var raw := kept + "\n" + FENCE;
    assert |kept| > 3 && kept[3] == '\n' && kept[0] == '`';
    assert raw[3] == kept[3];
    NotPrefixAt(raw, JSON_FENCE, 3);
    assert raw[|raw| - 1] == '`' && raw[0] == '`';
    SuffixOfAppend(kept + "\n", FENCE);
    NormalizeClosingOnly(raw);
    assert kept[|kept| - 1] == s[|s| - 1];
    StripPadded([], kept, "\n");
    EmptyLeft(kept);
  }

  /** An answer that is a JSON object with a commit message is read the same way
      bare and wrapped in a "```json" fence: the message, and the branch name
      when one is asked for and present. */
  lemma ParseFencedOrBare(text: string, branch: bool, decode: string -> Decoded)
    requires IsStripped(text) && text != [] && text[0] == '{' && text[|text| - 1] == '}'
    requires decode(text).Decoded? && decode(text).value.JObject?
    requires "commit_message" in decode(text).value.fields
    ensures var fields := decode(text).value.fields;
      var expected := Returned(fields["commit_message"],
                               if branch && "branch_name" in fields then fields["branch_name"] else JNull);
      && ParseResponse(text, branch, decode) == expected
      && ParseResponse(JSON_FENCE + "\n" + text + "\n" + FENCE, branch, decode) == expected
  {
    NotPrefixAt(text, JSON_FENCE, 0);
    NotSuffixAtEnd(text, FENCE);
    NormalizeBare(text);
    NormalizeFenced(text);
  }

  /** NormalizeKeepsPlain with no white space around the text. */
  lemma NormalizeBare(s: string)
    requires IsStripped(s) && !StartsWith(s, JSON_FENCE) && !EndsWith(s, FENCE)
    ensures Normalize(s) == s
  {
    NormalizeKeepsPlain([], s, []);
    EmptyLeft(s);
    EmptyRight(s);
  }

  /** NormalizeUnfences for a fence on lines of its own, with nothing around it. */
  lemma NormalizeFenced(s: string)
    requires IsStripped(s)
    ensures Normalize(JSON_FENCE + "\n" + s + "\n" + FENCE) == s
  {
    NormalizeUnfences([], "\n", s, "\n", []);
    EmptyLeft(JSON_FENCE);
    EmptyRight(JSON_FENCE + "\n" + s + "\n" + FENCE);
  }

}
