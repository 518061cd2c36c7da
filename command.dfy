/**
 * The shell command that MainActivity.executeSuspendAction sends to the privileged
 * user service: "cmd package suspend|unsuspend" followed by each selected package,
 * and how the service's Runtime.exec(String) splits that line into arguments.
 */
module SuspendCommand {

  /** The sub-command keyword: "suspend" when suspending, "unsuspend" otherwise. */
  function Verb(suspend: bool): (v: string)
    ensures v == "suspend" <==> suspend
    ensures v == "unsuspend" <==> !suspend
  {
    if suspend then "suspend" else "unsuspend"
  }

  /** Every package appended as " " + package, in list order. */
  function Arguments(pkgs: seq<string>): string
  {
    if pkgs == [] then "" else " " + pkgs[0] + Arguments(pkgs[1..])
  }

  /** The command line for one suspend or unsuspend action. */
  function CommandText(suspend: bool, pkgs: seq<string>): string
  {
    "cmd package " + Verb(suspend) + Arguments(pkgs)
  }

  lemma {:induction false} ArgumentsSnoc(pkgs: seq<string>, pkg: string)
    ensures Arguments(pkgs + [pkg]) == Arguments(pkgs) + " " + pkg
  {
    if pkgs == [] {
      assert pkgs + [pkg] == [pkg];
    } else {
      assert (pkgs + [pkg])[1..] == pkgs[1..] + [pkg];
      ArgumentsSnoc(pkgs[1..], pkg);
    }
  }

  /**
   * The StringBuilder loop of executeSuspendAction: start from "cmd package <verb>"
   * and append " " and the package for each selected package.
   */
  method BuildCommand(suspend: bool, pkgs: seq<string>) returns (command: string)
    ensures command == CommandText(suspend, pkgs)
  {
    var keyword := Verb(suspend);
    command := "cmd package " + keyword;
    var i := 0;
    while i < |pkgs|
      invariant 0 <= i <= |pkgs|
      invariant command == "cmd package " + keyword + Arguments(pkgs[..i])
    {
      ArgumentsSnoc(pkgs[..i], pkgs[i]);
      assert pkgs[..i + 1] == pkgs[..i] + [pkgs[i]];
      command := command + " " + pkgs[i];
      i := i + 1;
    }
    assert pkgs[..i] == pkgs;
  }

  // ---------------------------------------------------------------------------
  // How the user service runs the line: Runtime.exec(String) breaks it into
  // arguments at the default StringTokenizer delimiters (space, tab, newline,
  // carriage return, form feed) and drops empty tokens.
  // ---------------------------------------------------------------------------

  predicate IsDelimiter(c: char)
  {
    c == ' ' || c == '\t' || c == '\n' || c == '\r' || c as int == 12
  }

  /** A token that survives tokenization unchanged: non-empty, without delimiters. */
  predicate IsArgument(word: string)
  {
    word != "" && forall i :: 0 <= i < |word| ==> !IsDelimiter(word[i])
  }

  function Flush(word: string): seq<string>
  {
    if word == "" then [] else [word]
  }

  /** The tokens of `s`, with `word` the token read so far. */
  function TokensFrom(s: string, word: string): seq<string>
    decreases |s|
  {
    if s == [] then Flush(word)
    else if IsDelimiter(s[0]) then Flush(word) + TokensFrom(s[1..], "")
    else TokensFrom(s[1..], word + [s[0]])
  }

  function Tokenize(s: string): seq<string>
  {
    TokensFrom(s, "")
  }

  /** Characters that are not delimiters extend the current token. */
  lemma {:induction false} TokensFromWord(w: string, rest: string, word: string)
    requires forall i :: 0 <= i < |w| ==> !IsDelimiter(w[i])
    ensures TokensFrom(w + rest, word) == TokensFrom(rest, word + w)
    decreases |w|
  {
    if w == [] {
      assert w + rest == rest;
      assert word + w == word;
    } else {
      assert (w + rest)[0] == w[0];
      assert (w + rest)[1..] == w[1..] + rest;
      TokensFromWord(w[1..], rest, word + [w[0]]);
      assert word + [w[0]] + w[1..] == word + w;
    }
  }

  /** The arguments part splits into exactly the packages, after the pending token. */
  lemma {:induction false} ArgumentsTokens(pkgs: seq<string>, word: string)
    requires IsArgument(word)
    requires forall k :: 0 <= k < |pkgs| ==> IsArgument(pkgs[k])
    ensures TokensFrom(Arguments(pkgs), word) == [word] + pkgs
  {
    if pkgs == [] {
    } else {
      var s := Arguments(pkgs);
      var tail := pkgs[0] + Arguments(pkgs[1..]);
      assert s == " " + tail;
      assert s[0] == ' ' && s[1..] == tail;
      TokensFromWord(pkgs[0], Arguments(pkgs[1..]), "");
      assert "" + pkgs[0] == pkgs[0];
      ArgumentsTokens(pkgs[1..], pkgs[0]);
      assert [word] + ([pkgs[0]] + pkgs[1..]) == [word] + pkgs;
    }
  }

  /**
   * Each selected package reaches the command as its own argument, after
   * "cmd", "package" and the verb, provided no package name is empty or
   * contains a delimiter.
   */
  lemma CommandTokens(suspend: bool, pkgs: seq<string>)
    requires forall k :: 0 <= k < |pkgs| ==> IsArgument(pkgs[k])
    ensures Tokenize(CommandText(suspend, pkgs)) == ["cmd", "package", Verb(suspend)] + pkgs
  {
    var verb := Verb(suspend);
    var more := ["package", verb] + pkgs;
    assert more[1..] == [verb] + pkgs;
    assert more[1..][1..] == pkgs;
    assert Arguments(more) == " package" + (" " + verb + Arguments(pkgs));
    assert CommandText(suspend, pkgs) == "cmd" + Arguments(more);
    TokensFromWord("cmd", Arguments(more), "");
    assert "" + "cmd" == "cmd";
    forall k | 0 <= k < |more| ensures IsArgument(more[k]) {
      if k >= 2 { assert more[k] == pkgs[k - 2]; }
    }
    ArgumentsTokens(more, "cmd");
  }

  /**
   * The selection is never checked for whitespace, so a name with a space in
   * it (an app label such as "Play Store") reaches the command as two
   * arguments instead of one.
   */
  lemma SpacedNameSplits(suspend: bool, first: string, second: string)
    requires IsArgument(first) && IsArgument(second)
    ensures Tokenize(CommandText(suspend, [first + " " + second]))
         == ["cmd", "package", Verb(suspend), first, second]
  {
    assert [first, second][1..] == [second];
    assert [first + " " + second][1..] == [];
    assert Arguments([second]) == " " + second + "";
    assert Arguments([first, second]) == " " + first + Arguments([second]);
    assert Arguments([first + " " + second]) == " " + (first + " " + second) + "";
    assert Arguments([first + " " + second]) == Arguments([first, second]);
    CommandTokens(suspend, [first, second]);
  }

  /** The label "Play Store" becomes the two arguments "Play" and "Store". */
  lemma PlayStoreSplits()
    ensures Tokenize(CommandText(true, ["Play Store"])) == ["cmd", "package", "suspend", "Play", "Store"]
  {
    assert "Play Store" == "Play" + " " + "Store";
    SpacedNameSplits(true, "Play", "Store");
  }
}
