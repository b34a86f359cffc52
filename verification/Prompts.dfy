/**
 Prompt rendering of pkg/prompts/prompts.go: the arguments are substituted one after the other, each
 with a replace-all over the text that the earlier ones produced.
 */
module Prompts {
  import opened Wrappers

  datatype PromptArgument = PromptArgument(name: string, required: bool)

  /** Every occurrence of `old`, leftmost first and without overlap, becomes `by`. */
  function ReplaceAll(s: string, old': string, by': string): string
    requires old' != ""
  {
    if s == "" then ""
    else if old' <= s then by' + ReplaceAll(s[|old'|..], old', by')
    else [s[0]] + ReplaceAll(s[1..], old', by')
  }

  function PlaceholderOf(name: string): string {
    "{{" + name + "}}"
  }

  /** What a placeholder of the argument is replaced by, if it is replaced at all. */
  function Replacement(arg: PromptArgument, args: map<string, string>): Option<string> {
    if arg.name in args then Some(args[arg.name]) else if !arg.required then Some("") else None
  }

  /** What one declared argument does to the text. */
  function SubstituteOne(content: string, arg: PromptArgument, args: map<string, string>): string {
    match Replacement(arg, args)
    case Some(value) => ReplaceAll(content, PlaceholderOf(arg.name), value)
    case None => content
  }

  function Substituted(content: string, promptArgs: seq<PromptArgument>, args: map<string, string>): string {
    if promptArgs == [] then content
    else SubstituteOne(Substituted(content, promptArgs[..|promptArgs| - 1], args), promptArgs[|promptArgs| - 1], args)
  }

  method SubstituteArguments(content: string, promptArgs: seq<PromptArgument>, args: map<string, string>)
      returns (result: string)
    ensures result == Substituted(content, promptArgs, args)
  {
    result := content;
    for i := 0 to |promptArgs|
      invariant result == Substituted(content, promptArgs[..i], args)
    {
      var promptArg := promptArgs[i];
      var placeholder := PlaceholderOf(promptArg.name);
      if promptArg.name in args {
        result := ReplaceAll(result, placeholder, args[promptArg.name]);
      } else if !promptArg.required {
        result := ReplaceAll(result, placeholder, "");
      }
      assert promptArgs[..i + 1][..i] == promptArgs[..i];
    }
    assert promptArgs[..|promptArgs|] == promptArgs;
  }

  // ----- templates as the author means them

  datatype Token = Literal(text: string) | Placeholder(name: string)

  function TextOf(token: Token): string {
    match token
    case Literal(text) => text
    case Placeholder(name) => PlaceholderOf(name)
  }

  function Text(tokens: seq<Token>): string {
    if tokens == [] then "" else TextOf(tokens[0]) + Text(tokens[1..])
  }

  predicate BraceFree(s: string) {
    '{' !in s && '}' !in s
  }

  /** Single opening braces are fine, as long as something else follows them. */
  predicate Calm(s: string) {
    forall i :: 0 <= i < |s| && s[i] == '{' ==> i + 1 < |s| && s[i + 1] != '{'
  }

  predicate WellFormed(tokens: seq<Token>) {
    forall i :: 0 <= i < |tokens| ==>
      match tokens[i] case Literal(text) => Calm(text) case Placeholder(name) => BraceFree(name)
  }

  predicate Declared(promptArgs: seq<PromptArgument>, name: string) {
    exists arg :: arg in promptArgs && arg.name == name
  }

  /** The argument is declared, and some declaration of it makes it optional. */
  predicate Optional(promptArgs: seq<PromptArgument>, name: string) {
    PromptArgument(name, false) in promptArgs
  }

  function Filled(token: Token, promptArgs: seq<PromptArgument>, args: map<string, string>): Token {
    match token
    case Literal(_) => token
    case Placeholder(name) =>
      if name in args && Declared(promptArgs, name) then Literal(args[name])
      else if Optional(promptArgs, name) then Literal("")
      else token
  }

  /** All placeholders at once. */
  function AllFilled(tokens: seq<Token>, promptArgs: seq<PromptArgument>, args: map<string, string>): (r: seq<Token>)
    ensures |r| == |tokens|
    ensures forall i :: 0 <= i < |tokens| ==> r[i] == Filled(tokens[i], promptArgs, args)
  {
    if tokens == [] then [] else [Filled(tokens[0], promptArgs, args)] + AllFilled(tokens[1..], promptArgs, args)
  }

  // ----- pieces of text in which a pattern cannot begin

  /** The text does not contain the pattern, and does not end in the beginning of it. */
  predicate Safe(s: string, pattern: string) {
    forall i :: 0 <= i < |s| ==> !(pattern <= s[i..]) && !(s[i..] <= pattern)
  }

  predicate Occurs(s: string, pattern: string) {
    exists i :: 0 <= i <= |s| && pattern <= s[i..]
  }

  lemma PrefixesCompare(s: string, rest: string, pattern: string)
    ensures pattern <= s + rest ==> pattern <= s || s <= pattern
  {
    if pattern <= s + rest {
      if |pattern| <= |s| {
        assert pattern == (s + rest)[..|pattern|] == s[..|pattern|];
      } else {
        assert s == (s + rest)[..|s|] == pattern[..|s|];
      }
    }
  }

  lemma NotAtTheStart(s: string, rest: string, pattern: string)
    requires s != "" && Safe(s, pattern)
    ensures !(pattern <= s + rest) && Safe(s[1..], pattern)
  {
    assert s[0..] == s;
    PrefixesCompare(s, rest, pattern);
    assert forall i :: 0 <= i < |s| - 1 ==> s[1..][i..] == s[i + 1..];
  }

  lemma {:induction false} SkipsSafeText(s: string, rest: string, pattern: string, value: string)
    requires pattern != "" && Safe(s, pattern)
    ensures ReplaceAll(s + rest, pattern, value) == s + ReplaceAll(rest, pattern, value)
    ensures Occurs(s + rest, pattern) <==> Occurs(rest, pattern)
  {
    if s == "" {
      assert s + rest == rest;
    } else {
      NotAtTheStart(s, rest, pattern);
      assert (s + rest)[1..] == s[1..] + rest;
      SkipsSafeText(s[1..], rest, pattern, value);
      OccursLater(s + rest, pattern);
    }
  }

  lemma OccursLater(s: string, pattern: string)
    requires s != "" && !(pattern <= s)
    ensures Occurs(s, pattern) <==> Occurs(s[1..], pattern)
  {
    assert s[0..] == s;
    forall i | 1 <= i <= |s|
      ensures s[i..] == s[1..][i - 1..]
    {
    }
    if Occurs(s, pattern) {
      var i :| 0 <= i <= |s| && pattern <= s[i..];
      assert pattern <= s[1..][i - 1..];
    }
    if Occurs(s[1..], pattern) {
      var i :| 0 <= i <= |s[1..]| && pattern <= s[1..][i..];
      assert pattern <= s[i + 1..];
    }
  }

  lemma CalmTextIsSafe(s: string, name: string)
    requires Calm(s)
    ensures Safe(s, PlaceholderOf(name))
  {
    var pattern := PlaceholderOf(name);
    forall i | 0 <= i < |s|
      ensures !(pattern <= s[i..]) && !(s[i..] <= pattern)
    {
      assert pattern[0] == '{' && pattern[1] == '{';
      assert s[i..][0] == s[i] && (i + 1 < |s| ==> s[i..][1] == s[i + 1]);
    }
  }

  lemma PlaceholdersDiffer(n: string, m: string)
    requires BraceFree(n) && BraceFree(m) && PlaceholderOf(n) <= PlaceholderOf(m)
    ensures n == m
  {
    var p, q := PlaceholderOf(n), PlaceholderOf(m);
    assert p[|n| + 2] == '}' && q[|m| + 2] == '}';
    assert forall i :: 0 <= i < |n| ==> p[i + 2] == n[i] && n[i] != '}';
    assert forall i :: 0 <= i < |m| ==> q[i + 2] == m[i] && m[i] != '}';
    assert forall j :: 0 <= j < |p| ==> p[j] == q[j];
    if |n| == |m| {
      assert forall i :: 0 <= i < |n| ==> n[i] == p[i + 2] == q[i + 2] == m[i];
    }
  }

  lemma SafeFromTail(s: string, pattern: string)
    requires s != "" && Safe(s[1..], pattern) && !(pattern <= s) && !(s <= pattern)
    ensures Safe(s, pattern)
  {
    forall i | 0 <= i < |s|
      ensures !(pattern <= s[i..]) && !(s[i..] <= pattern)
    {
      if i == 0 {
        assert s[0..] == s;
      } else {
        assert s[i..] == s[1..][i - 1..];
      }
    }
  }

  lemma TailIsCalm(m: string)
    requires BraceFree(m)
    ensures PlaceholderOf(m)[1..] == "{" + m + "}}" && Calm("{" + m + "}}")
  {
    var tail := "{" + m + "}}";
    assert forall i :: 0 <= i < |m| ==> tail[i + 1] == m[i] && m[i] != '{';
    assert tail[1] != '{' && tail[|m| + 1] == '}' && tail[|m| + 2] == '}';
  }

  lemma OtherPlaceholderIsSafe(m: string, name: string)
    requires BraceFree(m) && BraceFree(name) && m != name
    ensures Safe(PlaceholderOf(m), PlaceholderOf(name))
  {
    TailIsCalm(m);
    hide Calm, Safe, BraceFree;
    CalmTextIsSafe("{" + m + "}}", name);
    NeitherIsPrefix(m, name);
    PlaceholderIsNotEmpty(m);
    SafeFromTail(PlaceholderOf(m), PlaceholderOf(name));
  }

  lemma NeitherIsPrefix(m: string, n: string)
    requires BraceFree(m) && BraceFree(n) && m != n
    ensures !(PlaceholderOf(m) <= PlaceholderOf(n)) && !(PlaceholderOf(n) <= PlaceholderOf(m))
  {
    if PlaceholderOf(m) <= PlaceholderOf(n) {
      PlaceholdersDiffer(m, n);
    }
    if PlaceholderOf(n) <= PlaceholderOf(m) {
      PlaceholdersDiffer(n, m);
    }
  }

  // ----- one replacement

  function Replaced(token: Token, name: string, value: string): Token {
    if token == Placeholder(name) then Literal(value) else token
  }

  function AllReplaced(tokens: seq<Token>, name: string, value: string): (r: seq<Token>)
    ensures |r| == |tokens| && forall i :: 0 <= i < |tokens| ==> r[i] == Replaced(tokens[i], name, value)
  {
    if tokens == [] then [] else [Replaced(tokens[0], name, value)] + AllReplaced(tokens[1..], name, value)
  }

  /** Outside its own placeholders, the name's placeholder cannot begin anywhere. */
  predicate Separates(token: Token, name: string) {
    match token
    case Literal(text) => Safe(text, PlaceholderOf(name))
    case Placeholder(m) => BraceFree(m)
  }

  lemma SkipsToken(token: Token, rest: string, name: string, value: string)
    requires Separates(token, name) && BraceFree(name) && token != Placeholder(name)
    ensures ReplaceAll(TextOf(token) + rest, PlaceholderOf(name), value)
            == TextOf(token) + ReplaceAll(rest, PlaceholderOf(name), value)
    ensures Occurs(TextOf(token) + rest, PlaceholderOf(name)) <==> Occurs(rest, PlaceholderOf(name))
  {
    match token {
      case Literal(text) => SkipsSafeText(text, rest, PlaceholderOf(name), value);
      case Placeholder(m) =>
        OtherPlaceholderIsSafe(m, name);
        SkipsSafeText(PlaceholderOf(m), rest, PlaceholderOf(name), value);
    }
  }

  lemma HitsPlaceholder(rest: string, name: string, value: string)
    ensures ReplaceAll(PlaceholderOf(name) + rest, PlaceholderOf(name), value)
            == value + ReplaceAll(rest, PlaceholderOf(name), value)
    ensures Occurs(PlaceholderOf(name) + rest, PlaceholderOf(name))
  {
    var s := PlaceholderOf(name) + rest;
    assert s[0..] == s && s[|PlaceholderOf(name)|..] == rest;
    assert PlaceholderOf(name) <= s[0..];
  }

  /** Replace-all hits the placeholders of that name and nothing else. */
  lemma {:induction false} ReplaceHitsPlaceholders(tokens: seq<Token>, name: string, value: string)
    requires BraceFree(name) && forall i :: 0 <= i < |tokens| ==> Separates(tokens[i], name)
    ensures ReplaceAll(Text(tokens), PlaceholderOf(name), value) == Text(AllReplaced(tokens, name, value))
    ensures Occurs(Text(tokens), PlaceholderOf(name)) <==> Placeholder(name) in tokens
  {
    hide ReplaceAll, Occurs, Separates, BraceFree, PlaceholderOf;
    if tokens == [] {
      NothingToReplace(name, value);
    } else {
      var token, rest := tokens[0], Text(tokens[1..]);
      ReplaceHitsPlaceholders(tokens[1..], name, value);
      assert AllReplaced(tokens, name, value)[1..] == AllReplaced(tokens[1..], name, value);
      assert tokens == [token] + tokens[1..];
      if token == Placeholder(name) {
        HitsPlaceholder(rest, name, value);
      } else {
        SkipsToken(token, rest, name, value);
      }
    }
  }

  lemma NothingToReplace(name: string, value: string)
    ensures ReplaceAll("", PlaceholderOf(name), value) == "" && !Occurs("", PlaceholderOf(name))
  {
  }

  /** Replacing a pattern by itself changes nothing, by anything else it changes every text that has the pattern. */
  lemma {:induction false} ReplaceChanges(s: string, pattern: string, value: string)
    requires pattern != ""
    ensures |value| == |pattern| ==> |ReplaceAll(s, pattern, value)| == |s|
    ensures |value| > |pattern| ==> |ReplaceAll(s, pattern, value)| >= |s| + if Occurs(s, pattern) then 1 else 0
    ensures |value| < |pattern| ==> |ReplaceAll(s, pattern, value)| <= |s| - if Occurs(s, pattern) then 1 else 0
    ensures ReplaceAll(s, pattern, value) == s <==> value == pattern || !Occurs(s, pattern)
  {
    if s == "" {
    } else if pattern <= s {
      assert s[0..] == s;
      assert Occurs(s, pattern);
      var rest := s[|pattern|..];
      assert s == pattern + rest;
      ReplaceChanges(rest, pattern, value);
      var r := value + ReplaceAll(rest, pattern, value);
      if |value| == |pattern| {
        assert r[..|pattern|] == value && s[..|pattern|] == pattern;
      }
    } else {
      ReplaceChanges(s[1..], pattern, value);
      OccursLater(s, pattern);
      var r := [s[0]] + ReplaceAll(s[1..], pattern, value);
      assert s == [s[0]] + s[1..] && r[1..] == ReplaceAll(s[1..], pattern, value);
    }
  }

  // ----- all replacements

  /** What the first argument puts in can be taken for a placeholder of the second, which is then replaced. */
  predicate Clash(first: PromptArgument, second: PromptArgument, args: map<string, string>) {
    var value, later := Replacement(first, args), Replacement(second, args);
    value.Some? && later.Some? && later.value != PlaceholderOf(second.name) && !Safe(value.value, PlaceholderOf(second.name))
  }

  predicate NamesAreBraceFree(promptArgs: seq<PromptArgument>) {
    forall arg :: arg in promptArgs ==> BraceFree(arg.name)
  }

  /** No argument clashes with one that is substituted after it. */
  predicate Harmless(promptArgs: seq<PromptArgument>, args: map<string, string>) {
    NamesAreBraceFree(promptArgs) && forall i, j :: 0 <= i < j < |promptArgs| ==> !Clash(promptArgs[i], promptArgs[j], args)
  }

  lemma FilledOneMore(token: Token, promptArgs: seq<PromptArgument>, arg: PromptArgument, args: map<string, string>)
    ensures Filled(token, promptArgs + [arg], args)
         == var before := Filled(token, promptArgs, args);
            match Replacement(arg, args)
            case Some(value) => Replaced(before, arg.name, value)
            case None => before
  {
    if token.Placeholder? {
      assert Declared(promptArgs + [arg], token.name) <==> Declared(promptArgs, token.name) || arg.name == token.name by {
        if Declared(promptArgs, token.name) {
          var a :| a in promptArgs && a.name == token.name;
          assert a in promptArgs + [arg];
        }
        assert arg in promptArgs + [arg];
      }
      assert Optional(promptArgs + [arg], token.name)
        <==> Optional(promptArgs, token.name) || arg == PromptArgument(token.name, false);
    }
  }

  /** A placeholder that was filled has the replacement of some argument. */
  lemma FilledByArgument(token: Token, promptArgs: seq<PromptArgument>, args: map<string, string>)
    ensures Filled(token, promptArgs, args) == token
         || exists i :: 0 <= i < |promptArgs| && Replacement(promptArgs[i], args).Some?
                        && Filled(token, promptArgs, args) == Literal(Replacement(promptArgs[i], args).value)
  {
    if Filled(token, promptArgs, args) != token {
      if token.name in args && Declared(promptArgs, token.name) {
        var arg :| arg in promptArgs && arg.name == token.name;
        var i :| 0 <= i < |promptArgs| && promptArgs[i] == arg;
        assert Replacement(promptArgs[i], args) == Some(args[token.name]);
      } else {
        var i :| 0 <= i < |promptArgs| && promptArgs[i] == PromptArgument(token.name, false);
        assert Replacement(promptArgs[i], args) == Some("");
      }
    }
  }

  /** After the first arguments, the next one can only begin at its own placeholders. */
  lemma FilledSeparates(token: Token, promptArgs: seq<PromptArgument>, arg: PromptArgument, args: map<string, string>)
    requires match token case Literal(text) => Calm(text) case Placeholder(name) => BraceFree(name)
    requires Replacement(arg, args).Some? && Replacement(arg, args).value != PlaceholderOf(arg.name)
    requires forall i :: 0 <= i < |promptArgs| ==> !Clash(promptArgs[i], arg, args)
    ensures Separates(Filled(token, promptArgs, args), arg.name)
  {
    hide Safe, Calm, PlaceholderOf;
    FilledByArgument(token, promptArgs, args);
    if token.Literal? {
      CalmTextIsSafe(token.text, arg.name);
    }
    hide Filled, Replacement;
  }

  lemma NothingFilled(tokens: seq<Token>, args: map<string, string>)
    ensures AllFilled(tokens, [], args) == tokens
  {
  }

  lemma {:induction false} SameTexts(tokens: seq<Token>, name: string)
    ensures Text(AllReplaced(tokens, name, PlaceholderOf(name))) == Text(tokens)
  {
    if tokens != [] {
      SameTexts(tokens[1..], name);
      assert AllReplaced(tokens, name, PlaceholderOf(name))[1..] == AllReplaced(tokens[1..], name, PlaceholderOf(name));
    }
  }

  lemma SubstituteNext(tokens: seq<Token>, first: seq<PromptArgument>, arg: PromptArgument, args: map<string, string>)
    requires WellFormed(tokens) && BraceFree(arg.name)
    requires forall i :: 0 <= i < |first| ==> !Clash(first[i], arg, args)
    ensures SubstituteOne(Text(AllFilled(tokens, first, args)), arg, args) == Text(AllFilled(tokens, first + [arg], args))
  {
    hide ReplaceAll, Text, Calm, BraceFree, Filled, Clash, Separates, Occurs, PlaceholderOf, Replacement;
    var before, after := AllFilled(tokens, first, args), AllFilled(tokens, first + [arg], args);
    forall i | 0 <= i < |tokens| {
      FilledOneMore(tokens[i], first, arg, args);
    }
    match Replacement(arg, args)
    case None =>
      assert after == before;
    case Some(value) =>
      assert after == AllReplaced(before, arg.name, value);
      if value == PlaceholderOf(arg.name) {
        SameTexts(before, arg.name);
        assert PlaceholderOf(arg.name) != "" by { PlaceholderIsNotEmpty(arg.name); }
        ReplaceChanges(Text(before), PlaceholderOf(arg.name), value);
      } else {
        forall i | 0 <= i < |tokens| {
          FilledSeparates(tokens[i], first, arg, args);
        }
        ReplaceHitsPlaceholders(before, arg.name, value);
      }
  }

  lemma PlaceholderIsNotEmpty(name: string)
    ensures PlaceholderOf(name) != ""
  {
  }

  /**
   Substituting the arguments one after the other is substituting them all at once: a placeholder
   becomes the given value if it is declared, disappears if it is optional and not given, and stays
   if it is not declared, or required and not given.
   */
  lemma {:induction false} SequentialIsSimultaneous(tokens: seq<Token>, promptArgs: seq<PromptArgument>, args: map<string, string>)
    requires WellFormed(tokens) && Harmless(promptArgs, args)
    ensures Substituted(Text(tokens), promptArgs, args) == Text(AllFilled(tokens, promptArgs, args))
  {
    hide WellFormed, Text, BraceFree, Filled, Clash, SubstituteOne;
    if promptArgs == [] {
      NothingFilled(tokens, args);
    } else {
      var n := |promptArgs| - 1;
      var first, arg := promptArgs[..n], promptArgs[n];
      assert first + [arg] == promptArgs && arg in promptArgs;
      SequentialIsSimultaneous(tokens, first, args);
      SubstituteNext(tokens, first, arg, args);
    }
  }

  lemma SameDeclarations(token: Token, p: seq<PromptArgument>, q: seq<PromptArgument>, args: map<string, string>)
    requires forall arg :: arg in p <==> arg in q
    ensures Filled(token, p, args) == Filled(token, q, args)
  {
    if token.Placeholder? {
      assert Declared(p, token.name) <==> Declared(q, token.name);
    }
  }

  /** Neither the order of the declarations nor repeated ones matter. */
  lemma OrderDoesNotMatter(tokens: seq<Token>, p: seq<PromptArgument>, q: seq<PromptArgument>, args: map<string, string>)
    requires WellFormed(tokens) && Harmless(p, args) && Harmless(q, args)
    requires forall arg :: arg in p <==> arg in q
    ensures Substituted(Text(tokens), p, args) == Substituted(Text(tokens), q, args)
  {
    hide Text, Substituted, WellFormed, Harmless;
    SequentialIsSimultaneous(tokens, p, args);
    SequentialIsSimultaneous(tokens, q, args);
    forall i | 0 <= i < |tokens| {
      SameDeclarations(tokens[i], p, q, args);
    }
    assert AllFilled(tokens, p, args) == AllFilled(tokens, q, args);
  }

  // ----- exactly when every order is right

  predicate Distinct(promptArgs: seq<PromptArgument>) {
    forall i, j :: 0 <= i < j < |promptArgs| ==> promptArgs[i].name != promptArgs[j].name
  }

  /** The same declarations in another order. */
  ghost predicate Reorders(q: seq<PromptArgument>, p: seq<PromptArgument>) {
    Distinct(q) && forall arg :: arg in p <==> arg in q
  }

  ghost predicate RightFor(tokens: seq<Token>, q: seq<PromptArgument>, args: map<string, string>) {
    Substituted(Text(tokens), q, args) == Text(AllFilled(tokens, q, args))
  }

  ghost predicate AlwaysSimultaneous(p: seq<PromptArgument>, args: map<string, string>) {
    forall q, tokens :: Reorders(q, p) && WellFormed(tokens) ==> RightFor(tokens, q, args)
  }

  ghost predicate NoClash(p: seq<PromptArgument>, args: map<string, string>) {
    forall a, b :: a in p && b in p && a != b ==> !Clash(a, b, args)
  }

  function Without(p: seq<PromptArgument>, a: PromptArgument, b: PromptArgument): (r: seq<PromptArgument>)
    ensures forall arg :: arg in r <==> arg in p && arg != a && arg != b
    ensures Distinct(p) ==> Distinct(r)
  {
    if p == [] then []
    else
      var n := |p| - 1;
      var r := Without(p[..n], a, b);
      assert p == p[..n] + [p[n]];
      assert Distinct(p) ==> forall i :: 0 <= i < |r| ==> r[i] in p[..n] && r[i].name != p[n].name;
      if p[n] == a || p[n] == b then r else r + [p[n]]
  }

  /** Arguments that have no placeholder in a template leave it alone. */
  lemma {:induction false} Untouched(tokens: seq<Token>, others: seq<PromptArgument>, args: map<string, string>)
    requires WellFormed(tokens) && NamesAreBraceFree(others)
    requires forall arg :: arg in others ==> Placeholder(arg.name) !in tokens
    ensures Substituted(Text(tokens), others, args) == Text(tokens)
  {
    if others != [] {
      var n := |others| - 1;
      assert others[n] in others;
      Untouched(tokens, others[..n], args);
      hide ReplaceAll, Text, Calm, Occurs;
      if Replacement(others[n], args).Some? {
        ReplaceInTemplate(tokens, others[n].name, Replacement(others[n], args).value);
        assert AllReplaced(tokens, others[n].name, Replacement(others[n], args).value) == tokens;
      }
    }
  }

  lemma ReplaceInTemplate(tokens: seq<Token>, name: string, value: string)
    requires WellFormed(tokens) && BraceFree(name)
    ensures ReplaceAll(Text(tokens), PlaceholderOf(name), value) == Text(AllReplaced(tokens, name, value))
  {
    hide ReplaceAll, Text, Calm, Occurs, Safe;
    forall i | 0 <= i < |tokens|
      ensures Separates(tokens[i], name)
    {
      if tokens[i].Literal? {
        CalmTextIsSafe(tokens[i].text, name);
      }
    }
    ReplaceHitsPlaceholders(tokens, name, value);
  }

  /** A template in which the clash shows: the placeholder of the first argument, and what its value lacks. */
  lemma Completion(value: string, name: string) returns (rest: string)
    requires BraceFree(name) && !Safe(value, PlaceholderOf(name))
    ensures Calm(rest) && Occurs(value + rest, PlaceholderOf(name))
  {
    var pattern := PlaceholderOf(name);
    var i :| 0 <= i < |value| && (pattern <= value[i..] || value[i..] <= pattern);
    if pattern <= value[i..] {
      rest := "";
      assert value + rest == value;
    } else {
      var k := |value| - i;
      rest := pattern[k..];
      assert value[i..] + rest == pattern;
      assert (value + rest)[i..] == value[i..] + rest;
      assert forall j :: 0 <= j < |rest| ==> rest[j] == pattern[j + k];
      assert forall j :: 2 <= j < |pattern| ==> pattern[j] != '{' by {
        assert forall j :: 0 <= j < |name| ==> pattern[j + 2] == name[j];
      }
    }
  }

  lemma TwoLast(p: seq<PromptArgument>, a: PromptArgument, b: PromptArgument)
    requires Distinct(p) && a in p && b in p && a != b
    ensures Reorders(Without(p, a, b) + [a, b], p)
    ensures forall arg :: arg in Without(p, a, b) ==> arg in p && arg.name != a.name
  {
    var others := Without(p, a, b);
    var q := others + [a, b];
    assert forall i, j :: 0 <= i < |p| && 0 <= j < |p| && p[i].name == p[j].name ==> i == j;
    assert forall x, y :: x in p && y in p && x.name == y.name ==> x == y;
    assert forall i :: 0 <= i < |others| ==> others[i] in others;
  }

  /** The first argument puts its value in, and the others before it have nothing to do. */
  lemma BeforeTheClash(others: seq<PromptArgument>, a: PromptArgument, rest: string, args: map<string, string>)
    requires NamesAreBraceFree(others) && BraceFree(a.name) && Calm(rest) && Replacement(a, args).Some?
    requires forall arg :: arg in others ==> arg.name != a.name
    ensures Substituted(Text([Placeholder(a.name), Literal(rest)]), others + [a], args) == Replacement(a, args).value + rest
  {
    var tokens, value := [Placeholder(a.name), Literal(rest)], Replacement(a, args).value;
    assert WellFormed(tokens);
    hide Calm, Safe, Occurs, ReplaceAll, BraceFree, Text, WellFormed, Replacement;
    Untouched(tokens, others, args);
    assert (others + [a])[..|others|] == others;
    ReplaceInTemplate(tokens, a.name, value);
    assert AllReplaced(tokens, a.name, value) == [Literal(value), Literal(rest)];
    TextOfTwo(value, rest);
  }

  lemma FilledTemplate(q: seq<PromptArgument>, a: PromptArgument, rest: string, args: map<string, string>)
    requires a in q && Replacement(a, args).Some? && Distinct(q)
    ensures Text(AllFilled([Placeholder(a.name), Literal(rest)], q, args)) == Replacement(a, args).value + rest
  {
    var tokens, value := [Placeholder(a.name), Literal(rest)], Replacement(a, args).value;
    assert Declared(q, a.name);
    assert a.name !in args ==> a == PromptArgument(a.name, false);
    assert AllFilled(tokens, q, args) == [Literal(value), Literal(rest)];
    TextOfTwo(value, rest);
  }

  lemma ClashShows(p: seq<PromptArgument>, a: PromptArgument, b: PromptArgument, args: map<string, string>)
      returns (q: seq<PromptArgument>, tokens: seq<Token>)
    requires Distinct(p) && NamesAreBraceFree(p) && a in p && b in p && a != b && Clash(a, b, args)
    ensures Reorders(q, p) && WellFormed(tokens) && !RightFor(tokens, q, args)
  {
    var others, value, later := Without(p, a, b), Replacement(a, args).value, Replacement(b, args).value;
    var rest := Completion(value, b.name);
    tokens := [Placeholder(a.name), Literal(rest)];
    q := others + [a, b];
    TwoLast(p, a, b);
    PlaceholderIsNotEmpty(b.name);
    assert WellFormed(tokens);
    assert NamesAreBraceFree(others) && BraceFree(a.name);
    ReordersMeans(q, p);
    RightMeans(tokens, q, args);
    hide *;
    BeforeTheClash(others, a, rest, args);
    FilledTemplate(q, a, rest, args);
    assert q == others + [a] + [b];
    SubstituteLast(Text(tokens), others + [a], b, args);
    ReplaceChanges(value + rest, PlaceholderOf(b.name), later);
  }

  lemma SubstituteLast(content: string, first: seq<PromptArgument>, arg: PromptArgument, args: map<string, string>)
    requires Replacement(arg, args).Some?
    ensures Substituted(content, first + [arg], args)
            == ReplaceAll(Substituted(content, first, args), PlaceholderOf(arg.name), Replacement(arg, args).value)
  {
    assert (first + [arg])[..|first|] == first;
  }

  lemma ReordersMeans(q: seq<PromptArgument>, p: seq<PromptArgument>)
    requires Reorders(q, p)
    ensures Distinct(q) && forall arg :: arg in p <==> arg in q
  {
  }

  lemma TextOfTwo(a: string, b: string)
    ensures Text([Literal(a), Literal(b)]) == a + b
  {
    assert [Literal(a), Literal(b)][1..] == [Literal(b)];
    assert [Literal(b)][1..] == [];
    assert Text([Literal(b)]) == b + Text([]) == b;
  }

  /**
   For arguments with distinct names without braces, every template comes out right in every order of
   the declarations exactly if no value that is put in contains, or ends in the beginning of, the placeholder
   of another argument that is replaced by something else than itself.
   */
  lemma SimultaneousExactlyWithoutClash(p: seq<PromptArgument>, args: map<string, string>)
    requires Distinct(p) && NamesAreBraceFree(p)
    ensures AlwaysSimultaneous(p, args) <==> NoClash(p, args)
  {
    hide Clash, RightFor, WellFormed;
    if NoClash(p, args) {
      forall q, tokens | Reorders(q, p) && WellFormed(tokens)
        ensures RightFor(tokens, q, args)
      {
        assert forall i, j :: 0 <= i < j < |q| ==> q[i] in p && q[j] in p && q[i] != q[j];
        assert Harmless(q, args);
        SequentialIsSimultaneous(tokens, q, args);
        assert RightFor(tokens, q, args) by { RightMeans(tokens, q, args); }
      }
    } else {
      var a, b :| a in p && b in p && a != b && Clash(a, b, args);
      var q, tokens := ClashShows(p, a, b, args);
    }
  }

  lemma RightMeans(tokens: seq<Token>, q: seq<PromptArgument>, args: map<string, string>)
    ensures RightFor(tokens, q, args) <==> Substituted(Text(tokens), q, args) == Text(AllFilled(tokens, q, args))
  {
  }

  /** A concrete clash: the value of the first argument is a placeholder of the second. */
  lemma OrderMattersForPlaceholderValues()
    ensures var args := map["a" := "{{b}}", "b" := "x"];
            var p := [PromptArgument("a", true), PromptArgument("b", true)];
            Clash(p[0], p[1], args) && !AlwaysSimultaneous(p, args)
  {
    var args := map["a" := "{{b}}", "b" := "x"];
    var p := [PromptArgument("a", true), PromptArgument("b", true)];
    assert PlaceholderOf("b") == "{{b}}" && "{{b}}"[0..] == "{{b}}";
    assert !Safe("{{b}}", PlaceholderOf("b"));
    assert p[0] in p && p[1] in p && p[0].name[0] != p[1].name[0];
    hide PlaceholderOf, Safe, Clash, AlwaysSimultaneous;
    SimultaneousExactlyWithoutClash(p, args);
  }

  // ----- the handler

  ghost predicate Missing(arg: PromptArgument, args: map<string, string>) {
    arg.required && arg.name !in args
  }

  /** The texts of the messages, or the name of the first required argument that is missing. */
  method RenderMessages(templates: seq<string>, promptArgs: seq<PromptArgument>, args: map<string, string>)
      returns (r: Result<seq<string>, string>)
    ensures r.Ok? <==> forall i :: 0 <= i < |promptArgs| && promptArgs[i].required ==> promptArgs[i].name in args
    ensures r.Ok? ==> |r.value| == |templates|
                      && forall i :: 0 <= i < |templates| ==> r.value[i] == Substituted(templates[i], promptArgs, args)
    ensures r.Err? ==> exists i :: && 0 <= i < |promptArgs| && promptArgs[i].required
                                   && promptArgs[i].name !in args && promptArgs[i].name == r.error
                                   && forall j :: 0 <= j < i ==> !Missing(promptArgs[j], args)
  {
    for i := 0 to |promptArgs|
      invariant forall j :: 0 <= j < i ==> !Missing(promptArgs[j], args)
    {
      if promptArgs[i].required && promptArgs[i].name !in args {
        assert Missing(promptArgs[i], args);
        return Err(promptArgs[i].name);
      }
    }
    var messages: seq<string> := [];
    for i := 0 to |templates|
      invariant |messages| == i
      invariant forall j :: 0 <= j < i ==> messages[j] == Substituted(templates[j], promptArgs, args)
    {
      var content := SubstituteArguments(templates[i], promptArgs, args);
      messages := messages + [content];
    }
    return Ok(messages);
  }

  /**
   Once the required arguments are there, the text has a placeholder exactly if the template has it and it is not
   declared, unless some value brings one in.
   */
  lemma OnlyUndeclaredPlaceholdersAreLeft(tokens: seq<Token>, promptArgs: seq<PromptArgument>, args: map<string, string>, name: string)
    requires WellFormed(tokens) && Harmless(promptArgs, args) && BraceFree(name)
    requires forall j :: 0 <= j < |promptArgs| ==>
               !Missing(promptArgs[j], args) && Safe(Replacement(promptArgs[j], args).value, PlaceholderOf(name))
    ensures Occurs(Substituted(Text(tokens), promptArgs, args), PlaceholderOf(name))
            <==> Placeholder(name) in tokens && !Declared(promptArgs, name)
  {
    SequentialIsSimultaneous(tokens, promptArgs, args);
    hide Substituted, Text, Safe, Occurs, ReplaceAll, Calm;
    var filled := AllFilled(tokens, promptArgs, args);
    forall i | 0 <= i < |tokens|
      ensures Separates(filled[i], name)
      ensures filled[i] == Placeholder(name) <==> tokens[i] == Placeholder(name) && !Declared(promptArgs, name)
    {
      FilledByArgument(tokens[i], promptArgs, args);
      if tokens[i].Literal? {
        CalmTextIsSafe(tokens[i].text, name);
      } else {
        FilledUnlessUndeclared(tokens[i], promptArgs, args);
      }
    }
    ReplaceHitsPlaceholders(filled, name, "");
    assert Placeholder(name) in filled <==> exists i :: 0 <= i < |filled| && filled[i] == Placeholder(name);
  }

  lemma FilledUnlessUndeclared(token: Token, promptArgs: seq<PromptArgument>, args: map<string, string>)
    requires token.Placeholder? && forall j :: 0 <= j < |promptArgs| ==> !Missing(promptArgs[j], args)
    ensures Filled(token, promptArgs, args) == token <==> !Declared(promptArgs, token.name)
  {
    if Declared(promptArgs, token.name) {
      var arg :| arg in promptArgs && arg.name == token.name;
      assert !Missing(arg, args);
      assert arg.required || arg == PromptArgument(token.name, false);
    }
  }

  // ----- configured prompts over built-in ones

  datatype ServerPrompt = ServerPrompt(name: string, id: nat)

  /** The prompts of that name, in order. */
  function Named(prompts: seq<ServerPrompt>, name: string): (r: seq<ServerPrompt>)
    ensures r != [] <==> exists i :: 0 <= i < |prompts| && prompts[i].name == name
  {
    if prompts == [] then []
    else
      var n := |prompts| - 1;
      var r := Named(prompts[..n], name) + if prompts[n].name == name then [prompts[n]] else [];
      assert forall i :: 0 <= i < n ==> prompts[..n][i] == prompts[i];
      r
  }

  lemma {:induction false} NamedAppend(p: seq<ServerPrompt>, q: seq<ServerPrompt>, name: string)
    ensures Named(p + q, name) == Named(p, name) + Named(q, name)
  {
    if q == [] {
      assert p + q == p;
    } else {
      var n := |q| - 1;
      assert (p + q)[..|p + q| - 1] == p + q[..n];
      NamedAppend(p, q[..n], name);
    }
  }

  lemma NoneNamed()
    ensures forall name :: Named([], name) == []
  {
  }

  lemma NamedSingle(p: seq<ServerPrompt>, q: ServerPrompt)
    ensures forall name :: Named(p + [q], name) == if name == q.name then Named(p, name) + [q] else Named(p, name)
  {
    assert (p + [q])[..|p + [q]| - 1] == p;
  }

  /** The base prompts whose names are not overridden, in their order. */
  function Kept(base: seq<ServerPrompt>, override: seq<ServerPrompt>): seq<ServerPrompt> {
    if base == [] then []
    else
      var n := |base| - 1;
      Kept(base[..n], override) + if Named(override, base[n].name) == [] then [base[n]] else []
  }

  lemma {:induction false} NamedKept(base: seq<ServerPrompt>, override: seq<ServerPrompt>, name: string)
    ensures Named(Kept(base, override), name) == if Named(override, name) != [] then [] else Named(base, name)
  {
    hide Named;
    if base == [] {
      NoneNamed();
    } else {
      var n := |base| - 1;
      NamedKept(base[..n], override, name);
      var kept := Kept(base[..n], override);
      assert base == base[..n] + [base[n]];
      NamedSingle(base[..n], base[n]);
      assert Named(base, name) == if name == base[n].name then Named(base[..n], name) + [base[n]] else Named(base[..n], name);
      NamedSingle(kept, base[n]);
      assert Named(kept + [base[n]], name) == if name == base[n].name then Named(kept, name) + [base[n]] else Named(kept, name);
      assert kept + [] == kept;
    }
  }

  /** An overriding name takes its prompts from the override alone, every other name from the base alone. */
  method MergePrompts(base: seq<ServerPrompt>, override: seq<ServerPrompt>) returns (result: seq<ServerPrompt>)
    ensures forall name :: Named(result, name) == if Named(override, name) != [] then Named(override, name) else Named(base, name)
    ensures result == Kept(base, override) + override
  {
    hide Named;
    NoneNamed();
    var overridden: set<string> := {};
    for i := 0 to |override|
      invariant forall name :: name in overridden <==> Named(override[..i], name) != []
    {
      assert override[..i + 1] == override[..i] + [override[i]];
      NamedSingle(override[..i], override[i]);
      overridden := overridden + {override[i].name};
    }
    assert override[..|override|] == override && base[..|base|] == base;
    var kept: seq<ServerPrompt> := [];
    for i := 0 to |base|
      invariant kept == Kept(base[..i], override)
    {
      assert base[..i + 1][..i] == base[..i];
      if base[i].name !in overridden {
        kept := kept + [base[i]];
      }
    }
    forall name
      ensures Named(kept + override, name) == if Named(override, name) != [] then Named(override, name) else Named(base, name)
    {
      NamedAppend(kept, override, name);
      NamedKept(base, override, name);
    }
    result := kept + override;
  }
}
