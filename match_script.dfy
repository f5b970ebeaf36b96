/**
 * The stand-alone script test/match.py: `method_name` applies the importer's
 * placeholder pattern and returns the rewritten string, or `None` when the pattern
 * does not match (the function ends without a `return`). Unlike the importer's
 * presenter it does not strip whitespace. Its two calls are the test vectors below.
 */
module MatchScript {
  import opened Wrappers
  import opened Ascii
  import Placeholder
  import Importer

  /** `method_name(data)`. */
  function MethodName(data: string): (r: Option<string>)
    ensures r.None? <==> Placeholder.NoPlaceholder(Placeholder.FirstLine(data))
  {
    match Placeholder.Match(data)
    case None => None
    case Some(g) => Some(Placeholder.Substitute(g))
  }

  /**
   * On a first line `prefix + "${" + token + "}" + suffix` with no placeholder in
   * `suffix`, the result is `prefix + "{{" + token + "}}" + suffix`: the `$` is gone,
   * the braces are doubled, nothing is stripped, and the text from the first newline
   * on (`rest`) is lost.
   */
  lemma MethodNameOfParts(data: string, prefix: string, token: string, suffix: string, rest: string, expected: string)
    requires data == prefix + "${" + token + "}" + suffix + rest
    requires '\n' !in prefix + "${" + token + "}" + suffix
    requires AllWord(token)
    requires Placeholder.NoPlaceholder(suffix)
    requires rest == [] || rest[0] == '\n'
    requires expected == prefix + "{{" + token + "}}" + suffix
    ensures MethodName(data) == Some(expected)
  {
    Placeholder.MatchOfParts(prefix, token, suffix, rest);
    Placeholder.SubstituteParts(prefix, token, suffix);
  }

  /**
   * The script and the importer's presenter use the same pattern and replacement:
   * where the script returns a string, the presenter has that string before it
   * strips; where the script returns `None`, the presenter only strips.
   */
  lemma AgreesWithPresenter(data: string)
    ensures MethodName(data).Some? ==> Importer.PresenterRewrite(data) == MethodName(data).value
    ensures MethodName(data).Some? ==> Importer.PresentScalar(data) == Strip(MethodName(data).value)
    ensures MethodName(data).None? ==> Importer.PresentScalar(data) == Strip(data)
  {
  }

  /** `method_name("coolstore-catalog:${APP_VERSION}")`, the script's first call. */
  lemma ImageTagVector()
    ensures MethodName("coolstore-catalog:${APP_VERSION}") == Some("coolstore-catalog:{{APP_VERSION}}")
  {
    MethodNameOfParts("coolstore-catalog:${APP_VERSION}", "coolstore-catalog:", "APP_VERSION", "", "",
                      "coolstore-catalog:{{APP_VERSION}}");
  }

  /** `method_name("${IMAGESTREAM_NAMESPACE}")`, the script's second call: empty prefix and suffix. */
  lemma NamespaceVector()
    ensures MethodName("${IMAGESTREAM_NAMESPACE}") == Some("{{IMAGESTREAM_NAMESPACE}}")
  {
    var token := "IMAGESTREAM_NAMESPACE";
    assert AllWord(token);
    WholeToken("${IMAGESTREAM_NAMESPACE}", token, "{{IMAGESTREAM_NAMESPACE}}");
  }

  /** A placeholder that is the whole string becomes its token in doubled braces. */
  lemma WholeToken(data: string, token: string, expected: string)
    requires data == "${" + token + "}" && expected == "{{" + token + "}}"
    requires AllWord(token)
    ensures MethodName(data) == Some(expected)
  {
    assert data == "" + "${" + token + "}" + "" + "";
    assert '\n' !in data by {
      forall i | 2 <= i < |data| - 1 ensures data[i] != '\n' {
        assert data[i] == token[i - 2];
      }
    }
    assert expected == "" + "{{" + token + "}}" + "";
    MethodNameOfParts(data, "", token, "", "", expected);
  }

  /** The greedy first group: of two placeholders, the later one is rewritten. */
  lemma GreedyVector()
    ensures MethodName("${A}-${B}") == Some("${A}-{{B}}")
  {
    MethodNameOfParts("${A}-${B}", "${A}-", "B", "", "", "${A}-{{B}}");
  }

  /** Only the first line takes part: the text after the newline is dropped. */
  lemma NewlineVector()
    ensures MethodName("a${X}b\nc") == Some("a{{X}}b")
  {
    MethodNameOfParts("a${X}b\nc", "a", "X", "b", "\nc", "a{{X}}b");
  }

  /** Surrounding whitespace survives the script. */
  lemma NoStripVector()
    ensures MethodName(" ${X} ") == Some(" {{X}} ")
  {
    PaddedParts();
    MethodNameOfParts(" ${X} ", " ", "X", " ", "", " {{X}} ");
  }

  /** The importer's presenter strips the same padding away. */
  lemma PresenterStripsVector()
    ensures Importer.PresentScalar(" ${X} ") == "{{X}}"
  {
    NoStripVector();
    AgreesWithPresenter(" ${X} ");
    PaddedParts();
    StripUnique(" ", "{{X}}", " ");
  }

  lemma PaddedParts()
    ensures " ${X} " == " " + "${" + "X" + "}" + " " + ""
    ensures '\n' !in " " + "${" + "X" + "}" + " "
    ensures AllWord("X") && Placeholder.NoPlaceholder(" ")
    ensures " {{X}} " == " " + "{{" + "X" + "}}" + " "
    ensures " {{X}} " == " " + "{{X}}" + " "
    ensures AllSpace(" ") && IsTrimmed("{{X}}")
  {
  }

  /** A `$` whose braces hold a non-word character is no placeholder: no match, `None`. */
  lemma NonWordVector()
    ensures MethodName("${A-B}") == None
  {
    var s := "${A-B}";
    assert Placeholder.FirstLine(s) == s by {
      Placeholder.FirstLineOf(s, []);
      assert s + [] == s;
    }
    assert Placeholder.TokenEnd(s, 2) == 3;
    forall k | 0 <= k < |s| ensures !Placeholder.PlaceholderAt(s, k) {
      if k > 0 { assert s[k] != '$'; }
    }
  }
}
