/** The unit-test vectors of the command builder, evaluated on the model. */
module CrlUrlTests {
  import opened Wrappers
  import opened CrlUrl
  import Macros

  /** The host of the tests: named `pytest`, with `$HOSTNAME$` bound to its name. */
  function PytestHost(): HostConfig {
    HostConfig("pytest", [("$HOSTNAME$", "pytest")])
  }

  /** A url without the macro name passes through unchanged. */
  lemma PlainUrlVector()
    ensures Macros.ReplaceMacros("foo", PytestHost().macros) == "foo"
  {
    Macros.ReplaceAllSkipPrefix("foo", "", "$HOSTNAME$", "pytest");
    assert "foo" + "" == "foo";
  }

  /** `$HOSTNAME$` in the url is replaced by the host's name. */
  lemma HostnameMacroVector(url: string)
    requires url == "https://$HOSTNAME$/foo"
    ensures Macros.ReplaceMacros(url, PytestHost().macros) == "https://pytest/foo"
  {
    var pre, key, post, value := "https://", "$HOSTNAME$", "/foo", "pytest";
    SplitUrl(url, pre, key, post);
    Macros.ReplaceMacrosSingle(url, key, value);
    Macros.ReplaceAllOnce(pre, key, post, value);
    JoinUrl(pre, value, post);
  }

  lemma SplitUrl(url: string, pre: string, key: string, post: string)
    requires url == "https://$HOSTNAME$/foo"
    requires pre == "https://" && key == "$HOSTNAME$" && post == "/foo"
    ensures url == pre + key + post && |key| > 0 && key[0] !in pre && key[0] !in post
  {
  }

  lemma JoinUrl(pre: string, value: string, post: string)
    requires pre == "https://" && value == "pytest" && post == "/foo"
    ensures pre + value + post == "https://pytest/foo"
  {
  }

  /** A fixed limit of (2, 3) with a plain url. */
  lemma FixedLevelsVector()
    ensures CommandsFunction(Params("foo", "foo", None, Limit("fixed", Some(Levels(2.0, 3.0)))),
                             PytestHost(), Macros.ReplaceMacros)
            == Success([Command("CRL foo", ["--url", "foo", "--warning", "2", "--critical", "3"])])
  {
    PlainUrlVector();
    var params := Params("foo", "foo", None, Limit("fixed", Some(Levels(2.0, 3.0))));
    assert LevelString(2.0) == "2";
    assert LevelString(3.0) == "3";
    assert CommandArguments(params, PytestHost().macros, Macros.ReplaceMacros) == ["--url", "foo", "--warning", "2", "--critical", "3"];
    assert ServicePrefix + "foo" == "CRL foo";
  }

  /** No levels, no proxy, and a url with the host-name macro. */
  lemma NoLevelsVector()
    ensures CommandsFunction(Params("foo", "https://$HOSTNAME$/foo", None, Limit("no_levels", None)),
                             PytestHost(), Macros.ReplaceMacros)
            == Success([Command("CRL foo", ["--url", "https://pytest/foo"])])
  {
    HostnameMacroVector("https://$HOSTNAME$/foo");
    var params := Params("foo", "https://$HOSTNAME$/foo", None, Limit("no_levels", None));
    UrlOnly(params, PytestHost().macros, Macros.ReplaceMacros);
    assert ServicePrefix + "foo" == "CRL foo";
  }

  /**
    The parameter record has no `prefix` field, so `'prefix': 'none'` is
    dropped by validation and the description keeps its `CRL ` prefix; the
    unit test expects the bare name instead.
   */
  lemma PrefixIgnoredVector()
    ensures var r := CommandsFunction(Params("OnlyFoo", "https://$HOSTNAME$/foo", None, Limit("no_levels", None)),
                                      PytestHost(), Macros.ReplaceMacros);
            && r == Success([Command("CRL OnlyFoo", ["--url", "https://pytest/foo"])])
            && r.value[0].serviceDescription != "OnlyFoo"
  {
    HostnameMacroVector("https://$HOSTNAME$/foo");
    var params := Params("OnlyFoo", "https://$HOSTNAME$/foo", None, Limit("no_levels", None));
    UrlOnly(params, PytestHost().macros, Macros.ReplaceMacros);
    assert ServicePrefix + "OnlyFoo" == "CRL OnlyFoo";
  }
}
