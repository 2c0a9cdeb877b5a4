# crl_url command builder

A Dafny model of the command builder of the `crl_url` active check, a
monitoring-platform plugin that watches how long a Certificate Revocation
List published at an HTTP(S) URL stays valid. The platform stores a rule's
values as a frozen `Params` record (`name`, `url`, optional `proxy`, and a
`limit` tuple). For every host the builder produces exactly one
`ActiveCheckCommand`: the service description `CRL <name>` and the probe's
argument list. That list is `--url` with the macro-substituted url, then
`--proxy <proxy>` if a non-empty proxy is set, then
`--warning <w> --critical <c>` if the limit is tagged `fixed`. The levels are
cut to integers by Python's `int()` and written by `str()`.

Files:

- `wrappers.dfy`: `Option` and `Result`.
- `decimal.dfy`: `str(int)` as `Decimal.IntToString`, its reader
  `Decimal.ParseInt`, and round trips in both directions.
- `macros.dfy`: a concrete stand-in for the platform's `replace_macros`. It
  runs Python's `str.replace` once per macro, in mapping order. It is used only
  to evaluate the unit-test vectors.
- `crl_url.dfy`: the parameter record, the builder, and the properties of the
  list it builds. Its partner is `CrlUrl.ReadArguments`, a reader of lists of
  the probe's shape. The round-trip lemma shows that the list carries exactly
  the substituted url, the effective proxy and the truncated levels.
- `crl_url_tests.dfy`: the three vectors of the unit test.

Modelling decisions:

- `limit` is kept as the source types it: a string tag plus an optional
  pair of floats (reals here). A `fixed` tag whose pair is `None` makes
  Python raise a `TypeError` when it subscripts `None`. `CrlUrl.CommandsFunction`
  returns `Failure(LevelsMissing)` in that case. Any tag other than `fixed`
  yields no level arguments, whatever the pair holds.
- `CrlUrl.CommandArguments` requires the levels to be readable
  (`LevelsPresent`). The case where they are not is the error path of
  `CrlUrl.CommandsFunction`, which the source reaches by raising.
- `int()` on a float truncates toward zero. `CrlUrl.TruncateToInt` models
  that for negative values as well. `str()` of a negative int has a leading
  `-`.
- `replace_macros` is a function parameter (`MacroReplacer`) of the builder.
  All general lemmas hold for every such function.
- The levels are passed on in input order. Nothing checks that warning is
  above critical.
- The code and its unit test disagree. The third test case
  (tests/unit/server_side_calls/test_crl_url.py:43-45) passes `'prefix': 'none'`
  and expects the description `OnlyFoo`. `Params` has no `prefix` field, so
  the validated record drops it, and the code always writes `CRL <name>`
  (server_side_calls/crl_url.py:50). The model follows the code.
  `CrlUrlTests.PrefixIgnoredVector` states the description it produces,
  `CRL OnlyFoo`, and that this is not the one the test expects.

## Model

| member | source | states |
|---|---|---|
| CrlUrl.CommandsFunction | server_side_calls/crl_url.py:39-52 | Fails exactly when the limit is tagged `fixed` without a level pair. Otherwise it yields exactly one command. The description is `CRL ` followed by the name and nothing else. The arguments are the builder's list. |
| CrlUrl.CommandArguments | server_side_calls/crl_url.py:43-47 | The list has 2 elements, plus 2 when a non-empty proxy is set, plus 4 when the limit is fixed. Its length is therefore 2, 4, 6 or 8. |
| CrlUrl.TruncateToInt | server_side_calls/crl_url.py:47 | `int()` on a float is the integer next to it toward zero: at most the value for non-negative input, at least the value for negative input, and less than one away. |
| CrlUrl.ArgumentsRoundTrip | server_side_calls/crl_url.py:43-47 | Reading the built list back gives the substituted url, the proxy (only if non-empty) and the truncated (warning, critical) pair in input order (only if fixed). |
| CrlUrl.ArgumentsDetermineSettings | server_side_calls/crl_url.py:43-47 | Two parameter sets that build the same list ask the probe for the same url, proxy and levels. |
| CrlUrl.UrlGroupFirst | server_side_calls/crl_url.py:43 | The list always starts with `--url`, immediately followed by the macro-substituted url. |
| CrlUrl.ProxyGroup | server_side_calls/crl_url.py:44-45 | `--proxy` sits at position 2 if and only if the proxy is present and non-empty. The proxy itself follows at position 3, verbatim, with no macro substitution. |
| CrlUrl.LevelGroup | server_side_calls/crl_url.py:46-47 | The fourth-from-last argument is `--warning` if and only if the limit is tagged `fixed`. In that case the last four are `--warning`, `str(int(warn))`, `--critical`, `str(int(crit))`. |
| CrlUrl.UrlOnly | server_side_calls/crl_url.py:43-47 | With no fixed levels and no proxy, the list is exactly `--url` and the substituted url. |
| CrlUrl.DescriptionDeterminesName | server_side_calls/crl_url.py:50 | Equal service descriptions come from equal names. |
| Decimal.NatToString | server_side_calls/crl_url.py:47 | `str()` of a non-negative int is a non-empty digit string with no leading zero, and it is `"0"` exactly for zero. |
| Decimal.IntToString | server_side_calls/crl_url.py:47 | `str()` of an int starts with `-` exactly when the int is negative. The rest is a canonical digit string, and never `"0"` after a minus. |
| Decimal.NatRoundTrip | server_side_calls/crl_url.py:47 | The digits written for a natural number denote that number. |
| Decimal.CanonicalRoundTrip | server_side_calls/crl_url.py:47 | Every canonical digit string is what `str()` writes for the value it denotes, so the rendering is onto the canonical strings. |
| Decimal.IntRoundTrip | server_side_calls/crl_url.py:47 | Reading back `str(i)` gives `i`. |
| Decimal.IntToStringInjective | server_side_calls/crl_url.py:47 | Two levels are written the same if and only if they are equal. |
| Macros.ReplaceMacrosWithoutNames | tests/unit/server_side_calls/test_crl_url.py:36-37 | A url that mentions no macro name passes through substitution unchanged, as `foo` does in the first vector. |
| CrlUrlTests.PlainUrlVector | tests/unit/server_side_calls/test_crl_url.py:36-37 | With the test host's macros, the url `foo` stays `foo`. |
| CrlUrlTests.HostnameMacroVector | tests/unit/server_side_calls/test_crl_url.py:40-41 | With `$HOSTNAME$` bound to `pytest`, `https://$HOSTNAME$/foo` becomes `https://pytest/foo`. |
| CrlUrlTests.FixedLevelsVector | tests/unit/server_side_calls/test_crl_url.py:36-37 | Fixed levels (2, 3) give `CRL foo` and `--url foo --warning 2 --critical 3`. |
| CrlUrlTests.NoLevelsVector | tests/unit/server_side_calls/test_crl_url.py:40-41 | `no_levels` with no proxy gives `CRL foo` and `--url https://pytest/foo`. |
| CrlUrlTests.PrefixIgnoredVector | tests/unit/server_side_calls/test_crl_url.py:44-45 | With the unknown `prefix` key dropped, the description is `CRL OnlyFoo` rather than the `OnlyFoo` the test expects. |

## Left out

- The declarative registrations are left out: rulesets/crl_url.py,
  web/plugins/wato/check_crl_url.py, graphing/crl_url.py and the
  `ActiveCheckConfig` object (server_side_calls/crl_url.py:55-59). They hold
  forms, validators and metric definitions with no logic to verify.
- `replace_macros` belongs to the platform library and is not part of this
  model. The builder takes it as a parameter. `Macros.ReplaceMacros` is only a
  stand-in for the test vectors.
- Pydantic's `model_validate` is a foreign library. Its parsing and coercion
  are not modelled. The model starts from an already validated record:
  integers given as levels are already reals, and unknown keys such as
  `prefix` are already dropped.
- CrlUrl.TruncateToInt: NaN and infinite floats cannot occur, because reals
  have no such values. For them Python's `int()` raises, and the model has no
  such error.
- The service-name `prefix` option is not modelled. The code does not
  implement it (see the note on the third test vector above).
- The active check probe itself is not part of this model: the HTTP fetch,
  proxying, CRL decoding, threshold classification, output line and exit
  codes. `CrlUrl.ReadArguments` reads only the argument list's shape.
  It does not model the probe's own command-line parser.
- The builder is a Python generator. The model returns the finished sequence
  of commands. Laziness is not observable here, because the only exception is
  raised before the single `yield`.
