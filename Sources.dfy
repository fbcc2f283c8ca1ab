/** How the views plugin decides where its client-ACL and record documents
    come from: a locator string is either an HTTP(S) URL serving JSON or the
    path of a YAML file; anything else is a setup error. */
module Sources {
  import opened Wrappers

  /** The two kinds of source: JSON over HTTP, or a YAML file on disk. */
  datatype Schema = SchemaHTTP | SchemaYAML

  /** strings.HasPrefix */
  predicate HasPrefix(s: string, prefix: string) {
    |prefix| <= |s| && s[..|prefix|] == prefix
  }

  /** strings.HasSuffix */
  predicate HasSuffix(s: string, suffix: string) {
    |suffix| <= |s| && s[|s| - |suffix|..] == suffix
  }

  predicate IsHTTPLocator(s: string) {
    HasPrefix(s, "http://") || HasPrefix(s, "https://")
  }

  predicate IsYAMLLocator(s: string) {
    HasSuffix(s, ".yaml") || HasSuffix(s, ".yml")
  }

  /** schemaCheck: the prefix test comes first, so an HTTP URL ending in
      ".yaml" is still an HTTP source. Where Go returns the empty schema
      together with an error, the model returns Err with the same message. */
  function SchemaCheck(s: string): (r: Result<Schema, string>)
    ensures r == Ok(SchemaHTTP) <==> IsHTTPLocator(s)
    ensures r == Ok(SchemaYAML) <==> !IsHTTPLocator(s) && IsYAMLLocator(s)
    ensures r.Err? <==> !IsHTTPLocator(s) && !IsYAMLLocator(s)
    ensures r.Err? ==> r.error == "unknown schema: " + s
  {
    if IsHTTPLocator(s) then Ok(SchemaHTTP)
    else if IsYAMLLocator(s) then Ok(SchemaYAML)
    else Err("unknown schema: " + s)
  }

  /** Whatever follows the scheme, an http:// or https:// locator is an HTTP
      source; in particular a URL whose path ends in ".yaml" or ".yml". */
  lemma HTTPSchemeWins(rest: string)
    ensures SchemaCheck("http://" + rest) == Ok(SchemaHTTP)
    ensures SchemaCheck("https://" + rest) == Ok(SchemaHTTP)
  {
    assert ("http://" + rest)[..7] == "http://";
    assert ("https://" + rest)[..8] == "https://";
  }

  /** Appending a suffix that starts with '.' to a string that does not
      start with p cannot make it start with p, when p has no '.'. */
  lemma DotSuffixKeepsPrefixOut(stem: string, suffix: string, p: string)
    requires !HasPrefix(stem, p)
    requires |suffix| > 0 && suffix[0] == '.'
    requires forall k :: 0 <= k < |p| ==> p[k] != '.'
    ensures !HasPrefix(stem + suffix, p)
  {
    var s := stem + suffix;
    if |stem| >= |p| {
      assert s[..|p|] == stem[..|p|];
    } else {
      assert s[|stem|] == '.' != p[|stem|];
    }
  }

  /** Appending ".yaml" or ".yml" to a stem that is not an HTTP(S) URL gives
      a YAML-file locator: the suffix cannot turn the stem into a URL. */
  lemma {:induction false} YAMLSuffixSelectsFile(stem: string)
    requires !IsHTTPLocator(stem)
    ensures SchemaCheck(stem + ".yaml") == Ok(SchemaYAML)
    ensures SchemaCheck(stem + ".yml") == Ok(SchemaYAML)
  {
    var yaml, yml := stem + ".yaml", stem + ".yml";
    assert yaml[|yaml| - 5..] == ".yaml";
    assert yml[|yml| - 4..] == ".yml";
    DotSuffixKeepsPrefixOut(stem, ".yaml", "http://");
    DotSuffixKeepsPrefixOut(stem, ".yaml", "https://");
    DotSuffixKeepsPrefixOut(stem, ".yml", "http://");
    DotSuffixKeepsPrefixOut(stem, ".yml", "https://");
  }

  /** A locator that is not an HTTP(S) URL and ends in ".json" is neither
      kind of source: it is rejected with the locator in the message. */
  lemma JSONSuffixRejected(s: string)
    requires !IsHTTPLocator(s) && HasSuffix(s, ".json")
    ensures SchemaCheck(s) == Err("unknown schema: " + s)
  {
    assert s[|s| - 5..][1] == 'j' && s[|s| - 4..][0] == 'j';
  }

  /** An HTTP URL naming a ".yaml" document is an HTTP source. */
  lemma HTTPURLOfYAMLDocument()
    ensures SchemaCheck("http://h/x.yaml") == Ok(SchemaHTTP)
  {
    HTTPSchemeWins("h/x.yaml");
    assert "http://h/x.yaml" == "http://" + "h/x.yaml";
  }

  /** A ".json" path is neither kind of source. */
  lemma JSONPathRejected()
    ensures SchemaCheck("clients.json") == Err("unknown schema: clients.json")
  {
    var json := "clients.json";
    assert json[..7][0] == 'c' && json[..8][0] == 'c';
    assert json[|json| - 5..][1] == 'j' && json[|json| - 4..][0] == 'j';
    assert "unknown schema: " + json == "unknown schema: clients.json";
  }
}
