/**
 * shared/routes.ts: the endpoint table and `buildUrl`, which fills the
 * `:name` placeholders of a path with parameter values.
 */
module Api {
  import opened Optional
  import opened Strings

  datatype HttpMethod = Get | Post | Delete

  datatype Endpoint = Endpoint(verb: HttpMethod, path: string)

  const PairingRelay := Endpoint(Post, "/api/pair")
  const PairingGet := Endpoint(Get, "/api/pair/:botId")
  const SessionUpload := Endpoint(Post, "/api/session")
  const SessionGet := Endpoint(Get, "/api/session/:botId")
  const SessionDelete := Endpoint(Delete, "/api/session/:botId")
  const SessionList := Endpoint(Get, "/api/sessions")

  /** A parameter value, `string | number` (numbers are integers here). */
  datatype ParamValue = Str(s: string) | Num(n: int)

  function DigitChar(d: nat): (c: char)
    requires d < 10
    ensures '0' <= c <= '9'
  {
    "0123456789"[d]
  }

  /** The decimal numeral of `n`, as `String(n)` writes it. */
  function NatString(n: nat): (r: string)
    ensures |r| >= 1
    ensures forall k :: 0 <= k < |r| ==> '0' <= r[k] <= '9'
    decreases n
  {
    if n < 10 then [DigitChar(n)] else NatString(n / 10) + [DigitChar(n % 10)]
  }

  /** `String(value)`; a number never contributes a `$`. */
  function ValueString(v: ParamValue): (r: string)
    ensures v.Str? ==> r == v.s
    ensures v.Num? ==> '$' !in r && |r| >= 1
  {
    match v
    case Str(s) => s
    case Num(n) => if n < 0 then "-" + NatString(-n) else NatString(n)
  }

  /** The placeholder of parameter `key` in a path. */
  function Placeholder(key: string): string {
    ":" + key
  }

  /**
   * One step of the `forEach` as intended: when the placeholder occurs, its
   * first occurrence is replaced by the value, literally.
   */
  function Step(url: string, key: string, value: ParamValue): (r: string)
    ensures !Includes(url, Placeholder(key)) ==> r == url
    ensures forall i :: FirstOccurrence(url, Placeholder(key), i) ==>
      r == url[..i] + ValueString(value) + url[i + |Placeholder(key)|..]
  {
    if Includes(url, Placeholder(key)) then ReplaceFirst(url, Placeholder(key), ValueString(value)) else url
  }

  /** The intended result of applying `params` in order, each step seeing the earlier ones. */
  function Substituted(path: string, params: seq<(string, ParamValue)>): string
    decreases |params|
  {
    if params == [] then path
    else
      var last := params[|params| - 1];
      Step(Substituted(path, params[..|params| - 1]), last.0, last.1)
  }

  /** One step of the `forEach` as written: `url.replace(":" + key, String(value))`. */
  function StepAsWritten(url: string, key: string, value: ParamValue): string {
    if Includes(url, Placeholder(key)) then JsReplace(url, Placeholder(key), ValueString(value)) else url
  }

  /** The result of applying `params` in order with the steps as written. */
  function SubstitutedAsWritten(path: string, params: seq<(string, ParamValue)>): string
    decreases |params|
  {
    if params == [] then path
    else
      var last := params[|params| - 1];
      StepAsWritten(SubstitutedAsWritten(path, params[..|params| - 1]), last.0, last.1)
  }

  /** `buildUrl(path, params)`, with the entries of `params` in the order `Object.entries` yields them. */
  method BuildUrl(path: string, params: Option<seq<(string, ParamValue)>>) returns (url: string)
    ensures params.None? ==> url == path
    ensures params.Some? ==> url == SubstitutedAsWritten(path, params.value)
  {
    url := path;
    if params.Some? {
      var entries := params.value;
      for i := 0 to |entries|
        invariant url == SubstitutedAsWritten(path, entries[..i])
      {
        var (key, value) := entries[i];
        if Includes(url, ":" + key) {
          url := JsReplace(url, ":" + key, ValueString(value));
        }
        assert entries[..i + 1][..i] == entries[..i];
      }
      assert entries[..|entries|] == entries;
    }
  }

  /** Applying `ps` and then `qs` is applying `ps + qs`: each replacement sees the earlier ones. */
  lemma {:induction false} SubstitutedAppend(path: string, ps: seq<(string, ParamValue)>, qs: seq<(string, ParamValue)>)
    ensures Substituted(path, ps + qs) == Substituted(Substituted(path, ps), qs)
    decreases |qs|
  {
    if qs == [] {
      assert ps + qs == ps;
    } else {
      var qs' := qs[..|qs| - 1];
      assert (ps + qs)[..|ps + qs| - 1] == ps + qs';
      SubstitutedAppend(path, ps, qs');
    }
  }

  /** No parameter value contains `$` (numbers never do). */
  predicate DollarFree(params: seq<(string, ParamValue)>) {
    forall k :: 0 <= k < |params| ==> '$' !in ValueString(params[k].1)
  }

  /** Without `$` in any value, the code as written computes the intended URL. */
  lemma {:induction false} AsWrittenWithoutDollar(path: string, params: seq<(string, ParamValue)>)
    requires DollarFree(params)
    ensures SubstitutedAsWritten(path, params) == Substituted(path, params)
    decreases |params|
  {
    if params != [] {
      var init := params[..|params| - 1];
      var last := params[|params| - 1];
      assert DollarFree(init) by {
        forall k | 0 <= k < |init| ensures '$' !in ValueString(init[k].1) { assert init[k] == params[k]; }
      }
      AsWrittenWithoutDollar(path, init);
      JsReplaceWithoutDollar(Substituted(path, init), Placeholder(last.0), ValueString(last.1));
    }
  }

  /**
   * A path that ends in the placeholder of `key`, after a prefix without `:`,
   * becomes that prefix followed by the value.
   */
  lemma PlaceholderAtEnd(prefix: string, key: string, value: ParamValue)
    requires ':' !in prefix
    ensures Substituted(prefix + Placeholder(key), [(key, value)]) == prefix + ValueString(value)
    ensures StepAsWritten(prefix + Placeholder(key), key, value)
      == prefix + Substitution(ValueString(value), Placeholder(key), prefix, "") + ""
  {
    var params := [(key, value)];
    assert params[..0] == [];
    var pat := Placeholder(key);
    FirstOccurrenceAfter(prefix, pat, "");
    assert prefix + pat + "" == prefix + pat;
    var url := prefix + pat;
    assert FirstOccurrence(url, pat, |prefix|);
    assert url[..|prefix|] == prefix;
    assert url[|prefix| + |pat|..] == "";
  }

  /** The session URL of a bot is the session path followed by the bot's identity. */
  lemma SessionUrl(botId: string)
    ensures Substituted(SessionGet.path, [("botId", Str(botId))]) == "/api/session/" + botId
    ensures '$' !in botId ==> SubstitutedAsWritten(SessionGet.path, [("botId", Str(botId))]) == "/api/session/" + botId
  {
    var params := [("botId", Str(botId))];
    assert SessionGet.path == "/api/session/" + Placeholder("botId");
    PlaceholderAtEnd("/api/session/", "botId", Str(botId));
    if '$' !in botId {
      assert DollarFree(params);
      AsWrittenWithoutDollar(SessionGet.path, params);
    }
  }

  /** The pairing URL of a bot is the pairing path followed by the bot's identity. */
  lemma PairingUrl(botId: string)
    ensures Substituted(PairingGet.path, [("botId", Str(botId))]) == "/api/pair/" + botId
  {
    assert PairingGet.path == "/api/pair/" + Placeholder("botId");
    PlaceholderAtEnd("/api/pair/", "botId", Str(botId));
  }

  /**
   * The code as written does not insert a value that holds `$&`: the pattern
   * is expanded to the matched placeholder, so the placeholder survives.
   */
  lemma DollarPatternExpanded(value: string)
    requires value == "$&"
    ensures SubstitutedAsWritten(SessionGet.path, [("botId", Str(value))]) == SessionGet.path
    ensures Substituted(SessionGet.path, [("botId", Str(value))]) == "/api/session/" + value
  {
    var params := [("botId", Str(value))];
    assert params[..0] == [];
    assert SessionGet.path == "/api/session/" + Placeholder("botId");
    PlaceholderAtEnd("/api/session/", "botId", Str(value));
    assert value[..2] == "$&" && value[2..] == "";
    assert Substitution(value, ":botId", "/api/session/", "") == ":botId" + Substitution("", ":botId", "/api/session/", "");
  }
}
