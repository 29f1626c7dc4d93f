/** Command-line parsing: `key=value` tokens into the parameter map (src/main.cpp, ParseCommandLineArgs). */
module Arguments {
  import opened Wrappers
  import opened Text
  import opened Errors

  type Parameters = map<string, string>

  /** A token the parser accepts: it has an '=' and something before the first one. */
  predicate WellFormed(token: string) {
    '=' in token && token[0] != '='
  }

  /** A token split at its first '=': the key before it, the value after it. */
  function SplitToken(token: string): (r: Result<(string, string), Error>)
    ensures r.Success? <==> WellFormed(token)
    ensures r.Failure? ==> r.error == if '=' in token then MissingKey(token) else MissingDelimiter(token)
    ensures r.Success? ==>
              var k := |r.value.0|;
              0 < k < |token| && r.value.0 == token[..k] && '=' !in r.value.0 &&
              token[k] == '=' && r.value.1 == token[k + 1..]
  {
    match IndexOf(token, '=')
    case None => Failure(MissingDelimiter(token))
    case Some(k) =>
      if k == 0 then Failure(MissingKey(token))
      else Success((token[..k], token[k + 1..]))
  }

  /** The text before the first '=' of a well-formed token. */
  function Key(token: string): string
    requires WellFormed(token)
  {
    SplitToken(token).value.0
  }

  /** The text after the first '=' of a well-formed token (possibly empty, possibly holding more '='). */
  function Value(token: string): string
    requires WellFormed(token)
  {
    SplitToken(token).value.1
  }

  /** The parameter map the tokens produce, each token applied in turn over the previous ones. */
  function ParsedArgs(args: seq<string>): Result<Parameters, Error>
    decreases |args|
  {
    if args == [] then Success(map[])
    else
      var parameters :- ParsedArgs(args[..|args| - 1]);
      var pair :- SplitToken(args[|args| - 1]);
      Success(parameters[pair.0 := pair.1])
  }

  /** Once a prefix of the tokens fails, the whole parse fails the same way. */
  lemma {:induction false} ParsedArgsStaysFailed(args: seq<string>, k: nat)
    requires k <= |args| && ParsedArgs(args[..k]).Failure?
    ensures ParsedArgs(args) == ParsedArgs(args[..k])
    decreases |args| - k
  {
    if k < |args| {
      assert args[..k + 1][..k] == args[..k];
      ParsedArgsStaysFailed(args, k + 1);
    } else {
      assert args[..k] == args;
    }
  }

  /** ParseCommandLineArgs: the loop over the tokens, aborting at the first malformed one. */
  method ParseCommandLineArgs(args: seq<string>) returns (r: Result<Parameters, Error>)
    ensures r == ParsedArgs(args)
  {
    var parameters: Parameters := map[];
    var i := 0;
    while i < |args|
      invariant 0 <= i <= |args|
      invariant ParsedArgs(args[..i]) == Success(parameters)
    {
      assert args[..i + 1][..i] == args[..i];
      var paramValPair := args[i];
      var delimiterPos := IndexOf(paramValPair, '=');
      if delimiterPos.None? {
        ParsedArgsStaysFailed(args, i + 1);
        return Failure(MissingDelimiter(paramValPair));
      }
      var parameter := paramValPair[..delimiterPos.value];
      if |parameter| == 0 {
        ParsedArgsStaysFailed(args, i + 1);
        return Failure(MissingKey(paramValPair));
      }
      var value := paramValPair[delimiterPos.value + 1..];
      parameters := parameters[parameter := value];
      i := i + 1;
    }
    assert args[..i] == args;
    r := Success(parameters);
  }

  /** Parsing succeeds exactly when every token is well formed. */
  lemma {:induction false} ParsedArgsSucceeds(args: seq<string>)
    ensures ParsedArgs(args).Success? <==> forall i | 0 <= i < |args| :: WellFormed(args[i])
    decreases |args|
  {
    if args != [] {
      var init := args[..|args| - 1];
      ParsedArgsSucceeds(init);
      assert forall i | 0 <= i < |init| :: init[i] == args[i];
    }
  }

  /** A failure reports the first malformed token; the tokens before it were all well formed. */
  lemma {:induction false} ParsedArgsFirstError(args: seq<string>)
    requires ParsedArgs(args).Failure?
    ensures exists i | 0 <= i < |args| ::
              !WellFormed(args[i]) && (forall j | 0 <= j < i :: WellFormed(args[j])) &&
              ParsedArgs(args) == Failure(SplitToken(args[i]).error)
    decreases |args|
  {
    var n := |args| - 1;
    var init := args[..n];
    assert forall j | 0 <= j < |init| :: init[j] == args[j];
    if ParsedArgs(init).Failure? {
      ParsedArgsFirstError(init);
      var i :| 0 <= i < |init| && !WellFormed(init[i]) && (forall j | 0 <= j < i :: WellFormed(init[j])) &&
               ParsedArgs(init) == Failure(SplitToken(init[i]).error);
      assert !WellFormed(args[i]) && (forall j | 0 <= j < i :: WellFormed(args[j]));
    } else {
      ParsedArgsSucceeds(init);
      assert !WellFormed(args[n]) && (forall j | 0 <= j < n :: WellFormed(args[j]));
    }
  }

  /** A successful parse is the parse of all but the last token, updated with the last token's pair. */
  lemma ParsedArgsStep(args: seq<string>)
    requires args != [] && ParsedArgs(args).Success?
    ensures var init, last := args[..|args| - 1], args[|args| - 1];
            ParsedArgs(init).Success? && WellFormed(last) &&
            ParsedArgs(args).value == ParsedArgs(init).value[Key(last) := Value(last)]
  {
  }

  /** The keys of well-formed tokens. */
  function Keys(args: seq<string>): set<string> {
    set i | 0 <= i < |args| && WellFormed(args[i]) :: Key(args[i])
  }

  /** The keys of a token list are those of all but its last token, plus the last token's. */
  lemma KeysStep(args: seq<string>)
    requires args != [] && WellFormed(args[|args| - 1])
    ensures Keys(args) == Keys(args[..|args| - 1]) + {Key(args[|args| - 1])}
  {
    var n := |args| - 1;
    var init := args[..n];
    forall k | k in Keys(args) ensures k in Keys(init) + {Key(args[n])} {
      var i :| 0 <= i < |args| && WellFormed(args[i]) && k == Key(args[i]);
      if i < n {
        assert init[i] == args[i];
      }
    }
    forall k | k in Keys(init) ensures k in Keys(args) {
      var i :| 0 <= i < |init| && WellFormed(init[i]) && k == Key(init[i]);
      assert args[i] == init[i];
    }
  }

  /** A successful parse has exactly the tokens' keys: a key given twice yields one entry. */
  lemma {:induction false} ParsedArgsKeys(args: seq<string>)
    requires ParsedArgs(args).Success?
    ensures forall i | 0 <= i < |args| :: WellFormed(args[i])
    ensures ParsedArgs(args).value.Keys == Keys(args)
    decreases |args|
  {
    ParsedArgsSucceeds(args);
    if args != [] {
      ParsedArgsStep(args);
      ParsedArgsKeys(args[..|args| - 1]);
      KeysStep(args);
    }
  }

  /** The value stored under a key is the value of the last token with that key. */
  lemma {:induction false} ParsedArgsLastWins(args: seq<string>, i: nat)
    requires ParsedArgs(args).Success?
    requires i < |args|
    ensures WellFormed(args[i]) && Key(args[i]) in ParsedArgs(args).value
    ensures (forall j | i < j < |args| :: WellFormed(args[j]) && Key(args[j]) != Key(args[i])) ==>
              ParsedArgs(args).value[Key(args[i])] == Value(args[i])
    decreases |args|
  {
    var n := |args| - 1;
    var init, last := args[..n], args[n];
    ParsedArgsStep(args);
    if i < n {
      assert init[i] == args[i];
      ParsedArgsLastWins(init, i);
      if forall j | i < j < |args| :: WellFormed(args[j]) && Key(args[j]) != Key(args[i]) {
        assert forall j | i < j < |init| :: init[j] == args[j];
        assert Key(last) != Key(args[i]);
      }
    }
  }
}
