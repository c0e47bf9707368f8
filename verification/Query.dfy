// The search query (internal/ui/query.go): words, is: qualifiers, the keys that
// toggle one, and tab completion. Letters and spaces are those of ASCII.

module Words {
  predicate IsSpace(c: char) {
    c == ' ' || '\t' <= c <= '\r'
  }

  predicate IsWord(w: string) {
    w != "" && forall i :: 0 <= i < |w| ==> !IsSpace(w[i])
  }

  function WordEnd(s: string): (n: nat)
    ensures n <= |s| && (n < |s| ==> IsSpace(s[n]))
    ensures forall i :: 0 <= i < n ==> !IsSpace(s[i])
  {
    if s == "" || IsSpace(s[0]) then 0 else 1 + WordEnd(s[1..])
  }

  // strings.Fields.
  function Fields(s: string): (words: seq<string>)
    ensures forall i :: 0 <= i < |words| ==> IsWord(words[i])
    decreases |s|
  {
    if s == "" then []
    else if IsSpace(s[0]) then Fields(s[1..])
    else [s[..WordEnd(s)]] + Fields(s[WordEnd(s)..])
  }

  // strings.Join on single spaces.
  function Join(words: seq<string>): string {
    if words == [] then ""
    else if |words| == 1 then words[0]
    else words[0] + " " + Join(words[1..])
  }

  function LowerChar(c: char): char {
    if 'A' <= c <= 'Z' then ((c as int) + 32) as char else c
  }

  function Lower(s: string): string {
    seq(|s|, i requires 0 <= i < |s| => LowerChar(s[i]))
  }

  // strings.EqualFold.
  predicate Fold(a: string, b: string) {
    Lower(a) == Lower(b)
  }

  lemma WordThenRest(w: string, rest: string)
    requires IsWord(w) && (rest == "" || IsSpace(rest[0]))
    ensures Fields(w + rest) == [w] + Fields(rest)
  {
    var s := w + rest;
    assert forall i :: 0 <= i < |w| ==> s[i] == w[i] && !IsSpace(s[i]);
    assert rest != "" ==> s[|w|] == rest[0];
    assert WordEnd(s) == |w|;
    assert s[..|w|] == w && s[|w|..] == rest;
  }

  lemma SpaceThenRest(rest: string)
    ensures Fields(" " + rest) == Fields(rest)
  {
    assert (" " + rest)[1..] == rest;
  }

  lemma NoFields(tail: string)
    requires tail == "" || tail == " "
    ensures Fields(tail) == []
  {
    SpaceThenRest("");
    assert " " + "" == " ";
  }

  lemma JoinMore(w: string, words: seq<string>, tail: string)
    requires words != []
    ensures Join([w] + words) + tail == w + (" " + (Join(words) + tail))
  {
    assert ([w] + words)[1..] == words;
  }

  // Words joined and split again are the same words, trailing space or not.
  lemma {:induction false} FieldsOfJoin(words: seq<string>, tail: string)
    requires forall w :: w in words ==> IsWord(w)
    requires tail == "" || tail == " "
    ensures Fields(Join(words) + tail) == words
  {
    NoFields(tail);
    if words == [] {
      assert Join(words) + tail == tail;
    } else {
      var w, rest := words[0], words[1..];
      assert words == [w] + rest;
      if rest == [] {
        WordThenRest(w, tail);
      } else {
        FieldsOfJoin(rest, tail);
        JoinMore(w, rest, tail);
        FieldsOfPair(w, Join(rest) + tail);
      }
    }
  }

  lemma FieldsOfPair(w: string, rest: string)
    requires IsWord(w)
    ensures Fields(w + (" " + rest)) == [w] + Fields(rest)
  {
    SpaceThenRest(rest);
    WordThenRest(w, " " + rest);
  }
}

module QuerySpec {
  import opened Packages
  import opened Words

  datatype Qualifier = OutdatedOnly | UntrustedOnly

  // What one word of a query asks for; a word that is no qualifier is text.
  datatype Meaning = Text | ShowDependencies | Keep(qualifier: Qualifier)

  datatype Query = Query(predicates: seq<Qualifier>, showDeps: bool, text: string)

  predicate IsPrefixed(token: string) {
    "is:" <= Lower(token)
  }

  function NameMeaning(name: string): Meaning {
    if name == "dep" then ShowDependencies
    else if name == "outdated" then Keep(OutdatedOnly)
    else if name == "untrusted" then Keep(UntrustedOnly)
    else Text
  }

  function MeaningOf(token: string): Meaning {
    if IsPrefixed(token) then NameMeaning(Lower(token)[3..]) else Text
  }

  function Predicates(tokens: seq<string>): seq<Qualifier> {
    if tokens == [] then []
    else
      var n := |tokens| - 1;
      Predicates(tokens[..n]) + if MeaningOf(tokens[n]).Keep? then [MeaningOf(tokens[n]).qualifier] else []
  }

  function Residual(tokens: seq<string>): seq<string> {
    if tokens == [] then []
    else
      var n := |tokens| - 1;
      Residual(tokens[..n]) + if MeaningOf(tokens[n]).Text? then [tokens[n]] else []
  }

  predicate Mentions(tokens: seq<string>, m: Meaning) {
    exists i :: 0 <= i < |tokens| && MeaningOf(tokens[i]) == m
  }

  function ParseTokens(tokens: seq<string>): Query {
    Query(Predicates(tokens), Mentions(tokens, ShowDependencies), Join(Residual(tokens)))
  }

  function Parse(query: string): Query {
    ParseTokens(Fields(query))
  }

  predicate Holds(q: Qualifier, p: Package) {
    match q
    case OutdatedOnly => p.outdated
    case UntrustedOnly => p.untrusted
  }

  predicate Matches(predicates: seq<Qualifier>, p: Package) {
    forall i :: 0 <= i < |predicates| ==> Holds(predicates[i], p)
  }

  function Without(fields: seq<string>, token: string): (kept: seq<string>)
    ensures |kept| <= |fields|
  {
    if fields == [] then []
    else
      var n := |fields| - 1;
      Without(fields[..n], token) + if Fold(fields[n], token) then [] else [fields[n]]
  }

  lemma WithoutNext(fields: seq<string>, last: string, token: string)
    ensures Without(fields + [last], token) == Without(fields, token) + if Fold(last, token) then [] else [last]
  {
    assert (fields + [last])[..|fields|] == fields;
  }

  function Toggle(query: string, token: string): (string, bool) {
    var fields := Fields(query);
    var kept := Without(fields, token);
    if |kept| < |fields| then (Join(kept), false) else (Join([token] + kept), true)
  }

  const VOCABULARY := ["dep", "outdated", "untrusted"]

  // The first name from the n-th on that is `prefix` or begins with it, if it is not
  // `prefix` itself.
  function FirstName(prefix: string, n: nat): string
    decreases |VOCABULARY| - n
  {
    if n >= |VOCABULARY| || VOCABULARY[n] == prefix then ""
    else if prefix <= VOCABULARY[n] then "is:" + VOCABULARY[n]
    else FirstName(prefix, n + 1)
  }

  // What follows is: in the query's last word, while that word is still being typed.
  function Unfinished(query: string): Option<string> {
    var fields := Fields(query);
    if (query != "" && query[|query| - 1] == ' ') || fields == [] || !IsPrefixed(fields[|fields| - 1]) then None
    else Some(Lower(fields[|fields| - 1])[3..])
  }

  function Complete(query: string): string {
    if Unfinished(query).None? then "" else FirstName(Unfinished(query).value, 0)
  }
}

module Query {
  import opened Packages
  import opened Words
  import opened QuerySpec

  method ParseQuery(query: string) returns (parsed: QuerySpec.Query)
    ensures parsed == Parse(query)
  {
    var predicates: seq<Qualifier>, showDeps, residual: seq<string> := [], false, [];
    var tokens := Fields(query);
    for n := 0 to |tokens|
      invariant predicates == Predicates(tokens[..n]) && residual == Residual(tokens[..n])
      invariant showDeps == Mentions(tokens[..n], ShowDependencies)
    {
      var token := tokens[n];
      assert tokens[..n + 1][..n] == tokens[..n];
      MentionsMore(tokens[..n], token, ShowDependencies);
      assert tokens[..n] + [token] == tokens[..n + 1];
      var meaning := MeaningOf(token);
      if meaning.Text? {
        residual := residual + [token];
        continue;
      }
      if meaning.ShowDependencies? {
        showDeps := true;
        continue;
      }
      predicates := predicates + [meaning.qualifier];
    }
    assert tokens[..|tokens|] == tokens;
    parsed := QuerySpec.Query(predicates, showDeps, Join(residual));
  }

  lemma MentionsMore(tokens: seq<string>, token: string, m: Meaning)
    ensures Mentions(tokens + [token], m) <==> Mentions(tokens, m) || MeaningOf(token) == m
  {
    var more := tokens + [token];
    if Mentions(tokens, m) {
      var i :| 0 <= i < |tokens| && MeaningOf(tokens[i]) == m;
      assert more[i] == tokens[i];
    }
    assert more[|tokens|] == token;
  }

  method Match(predicates: seq<Qualifier>, p: Package) returns (ok: bool)
    ensures ok <==> Matches(predicates, p)
  {
    for n := 0 to |predicates|
      invariant forall i :: 0 <= i < n ==> Holds(predicates[i], p)
    {
      if !Holds(predicates[n], p) {
        return false;
      }
    }
    return true;
  }

  // The words that stay are compacted to the front of the same array.
  method Compact(fields: array<string>, token: string) returns (kept: nat)
    modifies fields
    ensures kept <= fields.Length && fields[..kept] == Without(old(fields[..]), token)
  {
    ghost var words := fields[..];
    kept := 0;
    for n := 0 to fields.Length
      invariant kept <= n && fields[..kept] == Without(words[..n], token)
      invariant fields[n..] == words[n..]
    {
      var field := fields[n];
      assert field == words[n..][0];
      WithoutNext(words[..n], field, token);
      assert words[..n] + [field] == words[..n + 1];
      assert fields[n..][1..] == words[n..][1..];
      if !Fold(field, token) {
        fields[kept] := field;
        kept := kept + 1;
        assert fields[..kept] == fields[..kept - 1] + [field];
      }
    }
    assert words[..|words|] == words;
  }

  method ToggleQualifier(query: string, token: string) returns (next: string, on: bool)
    ensures (next, on) == Toggle(query, token)
  {
    var words := Fields(query);
    var fields := new string[|words|](i requires 0 <= i < |words| => words[i]);
    assert fields[..] == words;
    var kept := Compact(fields, token);
    if kept < fields.Length {
      return Join(fields[..kept]), false;
    }
    return Join([token] + fields[..kept]), true;
  }

  method CompleteQualifier(query: string) returns (completed: string)
    ensures completed == Complete(query)
  {
    if query != "" && query[|query| - 1] == ' ' {
      return "";
    }
    var fields := Fields(query);
    if |fields| == 0 {
      return "";
    }
    var last := fields[|fields| - 1];
    if !IsPrefixed(last) {
      return "";
    }
    var prefix := Lower(last)[3..];
    assert Unfinished(query) == Some(prefix);
    for n := 0 to |VOCABULARY|
      invariant FirstName(prefix, n) == FirstName(prefix, 0)
    {
      var name := VOCABULARY[n];
      if name == prefix {
        return "";
      }
      if prefix <= name {
        return "is:" + name;
      }
    }
    return "";
  }
}

module QueryProperties {
  import opened Packages
  import opened Words
  import opened QuerySpec

  // The words a key toggles; each has a meaning of its own.
  predicate IsToggle(token: string) {
    token == "is:dep" || token == "is:outdated" || token == "is:untrusted"
  }

  predicate Present(fields: seq<string>, token: string) {
    exists i :: 0 <= i < |fields| && Fold(fields[i], token)
  }

  lemma {:induction false} WithoutMeans(fields: seq<string>, token: string)
    ensures
      var kept := Without(fields, token);
      && (|kept| < |fields| <==> Present(fields, token))
      && (!Present(fields, token) ==> kept == fields)
      && forall w :: w in kept <==> w in fields && !Fold(w, token)
  {
    if fields != [] {
      var n := |fields| - 1;
      WithoutMeans(fields[..n], token);
      assert fields == fields[..n] + [fields[n]];
      if Present(fields[..n], token) {
        var i :| 0 <= i < n && Fold(fields[..n][i], token);
        assert Fold(fields[i], token);
      }
    }
  }

  // The words of a toggled query.
  lemma FieldsOfToggle(query: string, token: string)
    requires IsWord(token)
    ensures
      var (next, on) := Toggle(query, token);
      && on == !Present(Fields(query), token)
      && Fields(next) == if on then [token] + Fields(query) else Without(Fields(query), token)
  {
    var fields := Fields(query);
    var kept := Without(fields, token);
    WithoutMeans(fields, token);
    FieldsOfJoin(kept, "");
    FieldsOfJoin([token] + kept, "");
    assert Join(kept) + "" == Join(kept) && Join([token] + kept) + "" == Join([token] + kept);
  }

  // The reported state is the new one: the word is in the query exactly when the
  // toggle says it is on.
  lemma ToggleReportsState(query: string, token: string)
    requires IsWord(token)
    ensures Toggle(query, token).1 <==> Present(Fields(Toggle(query, token).0), token)
  {
    FieldsOfToggle(query, token);
    var (next, on) := Toggle(query, token);
    if on {
      assert Fields(next)[0] == token;
    } else {
      WithoutMeans(Fields(query), token);
      assert forall i :: 0 <= i < |Fields(next)| ==> Fields(next)[i] in Fields(next);
    }
  }

  // Toggling an absent word twice only normalises the spaces.
  lemma ToggleTwice(query: string, token: string)
    requires IsWord(token) && !Present(Fields(query), token)
    ensures Toggle(Toggle(query, token).0, token) == (Join(Fields(query)), false)
  {
    FieldsOfToggle(query, token);
    WithoutFront(token, Fields(query));
  }

  lemma {:induction false} WithoutFront(token: string, fields: seq<string>)
    requires forall i :: 0 <= i < |fields| ==> !Fold(fields[i], token)
    ensures Without([token] + fields, token) == fields
  {
    var n := |fields|;
    if n > 0 {
      WithoutFront(token, fields[..n - 1]);
      assert ([token] + fields)[..n] == [token] + fields[..n - 1];
    }
  }

  lemma ToggleWords()
    ensures Lower("is:dep") == "is:dep" && MeaningOf("is:dep") == ShowDependencies
    ensures Lower("is:outdated") == "is:outdated" && MeaningOf("is:outdated") == Keep(OutdatedOnly)
    ensures Lower("is:untrusted") == "is:untrusted" && MeaningOf("is:untrusted") == Keep(UntrustedOnly)
  {
    assert "is:dep"[3..] == "dep" && "is:outdated"[3..] == "outdated" && "is:untrusted"[3..] == "untrusted";
  }

  // A toggle removes exactly the words of its own meaning.
  lemma FoldIsMeaning(token: string, field: string)
    requires IsToggle(token)
    ensures Fold(field, token) <==> MeaningOf(field) == MeaningOf(token)
    ensures !MeaningOf(token).Text?
  {
    ToggleWords();
    if !MeaningOf(field).Text? {
      assert Lower(field) == "is:" + Lower(field)[3..];
    }
  }

  function Drop(predicates: seq<Qualifier>, m: Meaning): seq<Qualifier> {
    if predicates == [] then []
    else
      var n := |predicates| - 1;
      Drop(predicates[..n], m) + if Keep(predicates[n]) == m then [] else [predicates[n]]
  }

  lemma DropOne(predicates: seq<Qualifier>, q: Qualifier, m: Meaning)
    ensures Drop(predicates + [q], m) == Drop(predicates, m) + if Keep(q) == m then [] else [q]
  {
    assert (predicates + [q])[..|predicates|] == predicates;
  }

  lemma ResidualNext(tokens: seq<string>, token: string)
    ensures Residual(tokens + [token]) == Residual(tokens) + if MeaningOf(token).Text? then [token] else []
    ensures
      Predicates(tokens + [token])
      == Predicates(tokens) + if MeaningOf(token).Keep? then [MeaningOf(token).qualifier] else []
  {
    assert (tokens + [token])[..|tokens|] == tokens;
  }

  lemma {:induction false} ResidualWithout(fields: seq<string>, token: string)
    requires IsToggle(token)
    ensures Residual(Without(fields, token)) == Residual(fields)
  {
    if fields != [] {
      var front, last := fields[..|fields| - 1], fields[|fields| - 1];
      ResidualWithout(front, token);
      FoldIsMeaning(token, last);
      ResidualNext(Without(front, token), last);
      assert Without(front, token) + [] == Without(front, token) && Residual(front) + [] == Residual(front);
    }
  }

  lemma {:induction false} PredicatesWithout(fields: seq<string>, token: string)
    requires IsToggle(token)
    ensures Predicates(Without(fields, token)) == Drop(Predicates(fields), MeaningOf(token))
  {
    if fields != [] {
      var front, last := fields[..|fields| - 1], fields[|fields| - 1];
      PredicatesWithout(front, token);
      FoldIsMeaning(token, last);
      ResidualNext(Without(front, token), last);
      var before := Predicates(front);
      assert Without(front, token) + [] == Without(front, token) && before + [] == before;
      assert Drop(before, MeaningOf(token)) + [] == Drop(before, MeaningOf(token));
      if MeaningOf(last).Keep? {
        DropOne(Predicates(front), MeaningOf(last).qualifier, MeaningOf(token));
      }
    }
  }

  lemma MentionsWithout(fields: seq<string>, token: string, m: Meaning)
    requires IsToggle(token)
    ensures Mentions(Without(fields, token), m) <==> Mentions(fields, m) && m != MeaningOf(token)
  {
    var kept := Without(fields, token);
    WithoutMeans(fields, token);
    if Mentions(kept, m) {
      var i :| 0 <= i < |kept| && MeaningOf(kept[i]) == m;
      FoldIsMeaning(token, kept[i]);
      assert kept[i] in kept;
      var j :| 0 <= j < |fields| && fields[j] == kept[i];
      assert MeaningOf(fields[j]) == m;
    }
    if Mentions(fields, m) && m != MeaningOf(token) {
      var j :| 0 <= j < |fields| && MeaningOf(fields[j]) == m;
      FoldIsMeaning(token, fields[j]);
      assert fields[j] in fields;
      var i :| 0 <= i < |kept| && kept[i] == fields[j];
      assert MeaningOf(kept[i]) == m;
    }
  }

  lemma {:induction false} ParseFront(token: string, fields: seq<string>)
    requires IsToggle(token)
    ensures Residual([token] + fields) == Residual(fields)
    ensures
      Predicates([token] + fields)
      == (if MeaningOf(token).Keep? then [MeaningOf(token).qualifier] else []) + Predicates(fields)
  {
    FoldIsMeaning(token, token);
    if fields == [] {
      assert [token] + fields == [token] && [token][..0] == [];
    } else {
      var n := |fields| - 1;
      ParseFront(token, fields[..n]);
      assert ([token] + fields)[..n + 1] == [token] + fields[..n];
    }
  }

  lemma MentionsFront(token: string, fields: seq<string>, m: Meaning)
    ensures Mentions([token] + fields, m) <==> MeaningOf(token) == m || Mentions(fields, m)
  {
    var more := [token] + fields;
    assert more[0] == token;
    if Mentions(fields, m) {
      var i :| 0 <= i < |fields| && MeaningOf(fields[i]) == m;
      assert more[i + 1] == fields[i];
    }
  }

  // The parsed query after a toggle to `on`.
  predicate OnlyItself(before: Query, after: Query, m: Meaning, on: bool)
    requires !m.Text?
  {
    && after.text == before.text
    && after.showDeps == (if m == ShowDependencies then on else before.showDeps)
    && after.predicates ==
       if m.ShowDependencies? then before.predicates
       else if on then [m.qualifier] + before.predicates
       else Drop(before.predicates, m)
  }

  lemma ToggledOn(fields: seq<string>, token: string)
    requires IsToggle(token) && !Present(fields, token)
    ensures !MeaningOf(token).Text? && OnlyItself(ParseTokens(fields), ParseTokens([token] + fields), MeaningOf(token), true)
  {
    FoldIsMeaning(token, token);
    ParseFront(token, fields);
    MentionsFront(token, fields, ShowDependencies);
  }

  lemma ToggledOff(fields: seq<string>, token: string)
    requires IsToggle(token) && Present(fields, token)
    ensures
      !MeaningOf(token).Text? && OnlyItself(ParseTokens(fields), ParseTokens(Without(fields, token)), MeaningOf(token), false)
  {
    FoldIsMeaning(token, token);
    ResidualWithout(fields, token);
    PredicatesWithout(fields, token);
    MentionsWithout(fields, token, ShowDependencies);
    DropNothing(Predicates(fields));
  }

  // A toggle changes only its own qualifier in the parsed query: the text and the
  // other qualifiers stay, and its own is on or off as reported.
  lemma ToggleChangesOnlyItself(query: string, token: string)
    requires IsToggle(token)
    ensures !MeaningOf(token).Text?
    ensures OnlyItself(Parse(query), Parse(Toggle(query, token).0), MeaningOf(token), Toggle(query, token).1)
  {
    FieldsOfToggle(query, token);
    if Toggle(query, token).1 {
      ToggledOn(Fields(query), token);
    } else {
      ToggledOff(Fields(query), token);
    }
  }

  lemma {:induction false} DropNothing(predicates: seq<Qualifier>)
    ensures Drop(predicates, ShowDependencies) == predicates
  {
    if predicates != [] {
      DropNothing(predicates[..|predicates| - 1]);
    }
  }

  // ---- completion ----

  predicate IsName(prefix: string) {
    exists i :: 0 <= i < |VOCABULARY| && VOCABULARY[i] == prefix
  }

  lemma FirstNameMeans(prefix: string)
    ensures FirstName(prefix, 0) != "" <==> !IsName(prefix) && exists i :: 0 <= i < |VOCABULARY| && prefix <= VOCABULARY[i]
    ensures FirstName(prefix, 0) != "" ==> "is:" + prefix <= FirstName(prefix, 0) && IsToggle(FirstName(prefix, 0))
  {
    assert VOCABULARY[0] == "dep" && VOCABULARY[1] == "outdated" && VOCABULARY[2] == "untrusted";
    if prefix != "" && prefix <= VOCABULARY[0] { assert prefix[0] == 'd'; }
    if prefix != "" && prefix <= VOCABULARY[1] { assert prefix[0] == 'o'; }
    if prefix != "" && prefix <= VOCABULARY[2] { assert prefix[0] == 'u'; }
    assert FirstName(prefix, 0) == if prefix == "dep" then "" else if prefix <= "dep" then "is:dep" else FirstName(prefix, 1);
    assert FirstName(prefix, 1) == if prefix == "outdated" then "" else if prefix <= "outdated" then "is:outdated" else FirstName(prefix, 2);
    assert FirstName(prefix, 2) == if prefix == "untrusted" then "" else if prefix <= "untrusted" then "is:untrusted" else FirstName(prefix, 3);
  }

  // Tab completes exactly an unfinished is: word that begins some name and is none.
  lemma CompletionMeans(query: string)
    ensures
      Complete(query) != "" <==>
        && Unfinished(query).Some? && !IsName(Unfinished(query).value)
        && exists i :: 0 <= i < |VOCABULARY| && Unfinished(query).value <= VOCABULARY[i]
  {
    if Unfinished(query).Some? {
      FirstNameMeans(Unfinished(query).value);
    }
  }

  // What tab writes: the last word replaced, and a space after it.
  function Tabbed(query: string): string
    requires Fields(query) != []
  {
    var fields := Fields(query);
    Join(fields[..|fields| - 1] + [Complete(query)]) + " "
  }

  lemma CompletionExtends(query: string)
    requires Complete(query) != ""
    ensures Fields(query) != [] && IsToggle(Complete(query))
    ensures Lower(Fields(query)[|Fields(query)| - 1]) <= Complete(query)
  {
    FirstNameMeans(Unfinished(query).value);
    var lower := Lower(Fields(query)[|Fields(query)| - 1]);
    assert lower == "is:" + lower[3..];
  }

  lemma NothingAfterSpace(query: string)
    ensures Complete(query + " ") == ""
  {
  }

  lemma TabbedFields(query: string)
    requires Fields(query) != [] && IsWord(Complete(query))
    ensures Fields(Tabbed(query)) == Fields(query)[..|Fields(query)| - 1] + [Complete(query)]
  {
    FieldsOfJoin(Fields(query)[..|Fields(query)| - 1] + [Complete(query)], " ");
  }

  // After tab the last word extends what was typed, means something, and leaves
  // nothing to complete.
  lemma CompletionIsUnderstood(query: string)
    requires Complete(query) != ""
    ensures Fields(query) != [] && Complete(Tabbed(query)) == "" && !MeaningOf(Complete(query)).Text?
    ensures Fields(Tabbed(query)) == Fields(query)[..|Fields(query)| - 1] + [Complete(query)]
    ensures Lower(Fields(query)[|Fields(query)| - 1]) <= Complete(query)
  {
    CompletionExtends(query);
    ToggleWords();
    TabbedFields(query);
    NothingAfterSpace(Join(Fields(query)[..|Fields(query)| - 1] + [Complete(query)]));
  }
}
