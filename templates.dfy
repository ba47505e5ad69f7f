/**
 * Placeholder materialisation: the `replaceAll` calls with a global regex of
 * literal alternatives and a replacer callback that specialise the Decision
 * Tree Classifier script templates, and the generator's `str.replace` of
 * `<DATASET_NAME>`.
 */
module Templates {
  import opened Wrappers
  import opened Text

  /** The callback handed to `replaceAll`: it receives the matched text and returns its replacement. */
  type Replacer = string -> string

  /** The first alternative of the pattern, in pattern order, that matches at the start of s. */
  function FirstAlternative(s: string, alts: seq<string>): (r: Option<nat>)
    ensures r.Some? ==> r.value < |alts| && IsPrefix(alts[r.value], s)
    ensures r.Some? ==> forall j :: 0 <= j < r.value ==> !IsPrefix(alts[j], s)
    ensures r.None? ==> forall j :: 0 <= j < |alts| ==> !IsPrefix(alts[j], s)
  {
    if alts == [] then None
    else if IsPrefix(alts[0], s) then Some(0)
    else match FirstAlternative(s, alts[1..])
      case None => None
      case Some(i) => Some(i + 1)
  }

  /**
   * `s.replaceAll(/a0|a1|...|an/g, f)` for literal alternatives: the leftmost match wins, and at one
   * position the alternatives are tried in pattern order. An empty match is handed to the callback
   * and the scan then steps over one character, which is copied; the empty alternative also
   * matches once at the very end of the text.
   */
  function ReplaceAll(s: string, alts: seq<string>, f: Replacer): string
    decreases |s|
  {
    match FirstAlternative(s, alts)
    case None =>
      if s == [] then [] else [s[0]] + ReplaceAll(s[1..], alts, f)
    case Some(i) =>
      if alts[i] != [] then f(alts[i]) + ReplaceAll(s[|alts[i]|..], alts, f)
      else if s == [] then f([])
      else f([]) + [s[0]] + ReplaceAll(s[1..], alts, f)
  }

  /** Every alternative is a non-empty token opening with `<`. */
  predicate AngleTokens(alts: seq<string>) {
    forall j :: 0 <= j < |alts| ==> alts[j] != [] && alts[j][0] == '<'
  }

  /** No alternative is a prefix of another one. */
  predicate PrefixFree(alts: seq<string>) {
    forall i, j :: 0 <= i < |alts| && 0 <= j < |alts| && i != j ==> !IsPrefix(alts[i], alts[j])
  }

  /** No alternative matches at any position of s. */
  predicate NoOccurrence(s: string, alts: seq<string>) {
    forall k, j :: 0 <= k <= |s| && 0 <= j < |alts| ==> !IsPrefix(alts[j], s[k..])
  }

  /** Text in which no token occurs is passed through unchanged (when there is no empty alternative). */
  lemma {:induction false} UnmatchedTextUnchanged(s: string, alts: seq<string>, f: Replacer)
    requires NoOccurrence(s, alts)
    ensures ReplaceAll(s, alts, f) == s
    decreases |s|
  {
    assert s[0..] == s;
    if s != [] {
      assert NoOccurrence(s[1..], alts) by {
        forall k, j | 0 <= k <= |s[1..]| && 0 <= j < |alts| ensures !IsPrefix(alts[j], s[1..][k..]) {
          assert s[1..][k..] == s[k + 1..];
        }
      }
      UnmatchedTextUnchanged(s[1..], alts, f);
    }
  }

  /** No alternative matches at any position of t, read in front of rest. */
  predicate NoTokenStartsIn(t: string, rest: string, alts: seq<string>) {
    forall k :: 0 <= k < |t| ==> FirstAlternative((t + rest)[k..], alts).None?
  }

  /**
   * A stretch of text in which no token starts (read in front of what follows it) is copied
   * verbatim in front of the replaced rest. The text may hold `<` and even part of a token.
   */
  lemma {:induction false} PlainTextCopied(t: string, rest: string, alts: seq<string>, f: Replacer)
    requires NoTokenStartsIn(t, rest, alts)
    ensures ReplaceAll(t + rest, alts, f) == t + ReplaceAll(rest, alts, f)
    decreases |t|
  {
    if t != [] {
      var s := t + rest;
      assert s[0..] == s;
      CopiedChar(s, alts, f);
      NoTokenStartsInTail(t, rest, alts);
      PlainTextCopied(t[1..], rest, alts, f);
      assert s[1..] == t[1..] + rest;
      assert t == [t[0]] + t[1..];
    } else {
      assert t + rest == rest;
    }
  }

  /** Where no alternative matches, replaceAll copies one character and moves on. */
  lemma CopiedChar(s: string, alts: seq<string>, f: Replacer)
    requires s != [] && FirstAlternative(s, alts).None?
    ensures ReplaceAll(s, alts, f) == [s[0]] + ReplaceAll(s[1..], alts, f)
  {
  }

  lemma NoTokenStartsInTail(t: string, rest: string, alts: seq<string>)
    requires t != [] && NoTokenStartsIn(t, rest, alts)
    ensures NoTokenStartsIn(t[1..], rest, alts)
  {
    forall k | 0 <= k < |t[1..]| ensures FirstAlternative((t[1..] + rest)[k..], alts).None? {
      assert (t[1..] + rest)[k..] == (t + rest)[k + 1..];
    }
  }

  /**
   * Literal text holds no start of a token that opens with `<` when every `<` in it is followed,
   * within the text, by a character that is not the second character of any token (an e-mail
   * address such as `<author@example.org>`, say).
   */
  lemma LiteralWithoutToken(t: string, rest: string, alts: seq<string>)
    requires AngleTokens(alts) && forall j :: 0 <= j < |alts| ==> |alts[j]| >= 2
    requires forall k :: 0 <= k < |t| && t[k] == '<' ==>
      k + 1 < |t| && forall j :: 0 <= j < |alts| ==> t[k + 1] != alts[j][1]
    ensures NoTokenStartsIn(t, rest, alts)
  {
    forall k | 0 <= k < |t| ensures FirstAlternative((t + rest)[k..], alts).None? {
      var s := (t + rest)[k..];
      assert s[0] == t[k];
      forall j | 0 <= j < |alts| ensures !IsPrefix(alts[j], s) {
        if |alts[j]| <= |s| {
          assert s[..|alts[j]|][0] == s[0];
          if t[k] == '<' {
            assert s[1] == t[k + 1];
            assert s[..|alts[j]|][1] == s[1];
          }
        }
      }
    }
  }

  /** A token of a prefix-free pattern is replaced by the callback's value for it. */
  lemma TokenReplaced(tok: string, rest: string, alts: seq<string>, f: Replacer)
    requires AngleTokens(alts) && PrefixFree(alts)
    requires tok in alts
    ensures ReplaceAll(tok + rest, alts, f) == f(tok) + ReplaceAll(rest, alts, f)
  {
    var s := tok + rest;
    var t :| 0 <= t < |alts| && alts[t] == tok;
    assert IsPrefix(tok, s);
    var r := FirstAlternative(s, alts);
    assert r.Some? && r.value <= t;
    assert s[|tok|..] == rest;
  }

  /** A template as a sequence of literal text and placeholder slots. */
  datatype Piece = Lit(text: string) | Slot(token: string)

  /** The template text. */
  function Layout(ps: seq<Piece>): string {
    if ps == [] then []
    else (match ps[0] case Lit(t) => t case Slot(tok) => tok) + Layout(ps[1..])
  }

  /** The template with every slot replaced by the value f gives its token. */
  function Fill(ps: seq<Piece>, f: Replacer): string {
    if ps == [] then []
    else (match ps[0] case Lit(t) => t case Slot(tok) => f(tok)) + Fill(ps[1..], f)
  }

  /**
   * Slots are drawn from the pattern's tokens, and no token starts inside a literal piece, read in
   * front of the rest of the template.
   */
  predicate WellFormed(ps: seq<Piece>, alts: seq<string>) {
    ps == [] ||
    ((match ps[0]
      case Lit(t) => NoTokenStartsIn(t, Layout(ps[1..]), alts)
      case Slot(tok) => tok in alts)
     && WellFormed(ps[1..], alts))
  }

  /** The materialised text is the template with each placeholder replaced and all other text kept. */
  lemma {:induction false} ReplaceAllFills(ps: seq<Piece>, alts: seq<string>, f: Replacer)
    requires AngleTokens(alts) && PrefixFree(alts)
    requires WellFormed(ps, alts)
    ensures ReplaceAll(Layout(ps), alts, f) == Fill(ps, f)
  {
    if ps == [] {
      assert ReplaceAll([], alts, f) == [];
    } else {
      ReplaceAllFills(ps[1..], alts, f);
      match ps[0]
      case Lit(t) => PlainTextCopied(t, Layout(ps[1..]), alts, f);
      case Slot(tok) => TokenReplaced(tok, Layout(ps[1..]), alts, f);
    }
  }

  /** Appending an alternative to the pattern only matters where none of the others matches. */
  lemma {:induction false} FirstAlternativeAppend(s: string, alts: seq<string>, x: string)
    ensures FirstAlternative(s, alts + [x])
         == if FirstAlternative(s, alts).Some? then FirstAlternative(s, alts)
            else if IsPrefix(x, s) then Some(|alts|) else None
  {
    if alts != [] {
      assert (alts + [x])[1..] == alts[1..] + [x];
      FirstAlternativeAppend(s, alts[1..], x);
    }
  }

  /** A trailing empty alternative whose match the callback hands back unchanged has no effect. */
  lemma {:induction false} EmptyAlternativeInert(s: string, alts: seq<string>, f: Replacer)
    requires forall j :: 0 <= j < |alts| ==> alts[j] != []
    requires f([]) == []
    ensures ReplaceAll(s, alts + [[]], f) == ReplaceAll(s, alts, f)
    decreases |s|
  {
    var ext := alts + [[]];
    FirstAlternativeAppend(s, alts, []);
    var r := FirstAlternative(s, ext);
    assert IsPrefix(ext[|alts|], s);
    assert r.Some?;
    if r.value < |alts| {
      assert alts[r.value] == ext[r.value];
      EmptyAlternativeInert(s[|alts[r.value]|..], alts, f);
    } else {
      if s != [] {
        EmptyAlternativeInert(s[1..], alts, f);
      }
    }
  }

  // The two replaceAll calls of the Decision Tree Classifier handler.

  const WorkflowNameToken := "<WORKFLOW_NAME>"
  const WorkflowIdToken := "<WORKFLOW_ID>"
  const ClassNameToken := "<CLASS_NAME>"
  const RandomStateToken := "<RANDOM_STATE>"
  const DatasetNameToken := "<DATASET_NAME>"

  /** `/<WORKFLOW_NAME>|<WORKFLOW_ID>/g` */
  const NameIdPattern: seq<string> := [WorkflowNameToken, WorkflowIdToken]

  /** `/<CLASS_NAME>|<RANDOM_STATE>|/g`: note the trailing empty alternative. */
  const ClassStatePattern: seq<string> := [ClassNameToken, RandomStateToken, []]

  /** The callback of the name/id replacement: unknown matches are returned as they are. */
  function NameIdReplacer(name: string, workflowId: nat): Replacer {
    m => if m == WorkflowNameToken then name
         else if m == WorkflowIdToken then NatToDecimal(workflowId)
         else m
  }

  /** JavaScript `s.charAt(i)`: a one-character string, or the empty string out of range. */
  function CharAt(s: string, i: int): string {
    if 0 <= i < |s| then [s[i]] else []
  }

  /**
   * The class-name quoting rule: the value is kept when it starts with `"` or `'` and ends with `"`;
   * otherwise it is wrapped in double quotes.
   */
  function ClassNameLiteral(c: string): (r: string)
    ensures ((CharAt(c, 0) == "\"" || CharAt(c, 0) == "'") && CharAt(c, |c| - 1) == "\"") <==> r == c
    ensures r != c ==> r == "\"" + c + "\""
    ensures |r| >= 1 && r[|r| - 1] == '"' && (r[0] == '"' || r[0] == '\'')
  {
    if (CharAt(c, 0) == "\"" && CharAt(c, |c| - 1) == "\"")
      || (CharAt(c, 0) == "'" && CharAt(c, |c| - 1) == "\"")
    then c
    else "\"" + c + "\""
  }

  /** Quoting an already quoted class name changes nothing. */
  lemma ClassNameLiteralIdempotent(c: string)
    ensures ClassNameLiteral(ClassNameLiteral(c)) == ClassNameLiteral(c)
  {
    var r := ClassNameLiteral(c);
    assert CharAt(r, 0) == [r[0]] && CharAt(r, |r| - 1) == [r[|r| - 1]];
  }

  /** The callback of the class-name/random-state replacement. */
  function ClassStateReplacer(className: string, randomState: nat): Replacer {
    m => if m == ClassNameToken then ClassNameLiteral(className)
         else if m == RandomStateToken then NatToDecimal(randomState)
         else m
  }

  /** Script templates 1 and 3: workflow name and id substituted. */
  function MaterializeNameId(template: string, name: string, workflowId: nat): string {
    ReplaceAll(template, NameIdPattern, NameIdReplacer(name, workflowId))
  }

  /** Script template 2: class name and random state substituted. */
  function MaterializeClassState(template: string, className: string, randomState: nat): string {
    ReplaceAll(template, ClassStatePattern, ClassStateReplacer(className, randomState))
  }

  /** The generator's `content.replace("<DATASET_NAME>", name)`. */
  function MainYml(template: string, datasetName: string): string {
    ReplaceAll(template, [DatasetNameToken], _ => datasetName)
  }

  lemma NameIdPatternShape()
    ensures AngleTokens(NameIdPattern) && PrefixFree(NameIdPattern)
  {
    assert NameIdPattern[0][10] != NameIdPattern[1][10];
    assert !IsPrefix(NameIdPattern[0], NameIdPattern[1]);
    assert !IsPrefix(NameIdPattern[1], NameIdPattern[0]) by {
      assert NameIdPattern[0][..|NameIdPattern[1]|][10] != NameIdPattern[1][10];
    }
  }

  lemma ClassStateTokensShape()
    ensures AngleTokens(ClassStatePattern[..2]) && PrefixFree(ClassStatePattern[..2])
  {
    var p := ClassStatePattern[..2];
    assert p == [ClassNameToken, RandomStateToken];
    assert !IsPrefix(p[0], p[1]) by { assert p[1][1] != p[0][1]; }
    assert !IsPrefix(p[1], p[0]) by { assert p[1][1] != p[0][1]; }
  }

  /** Every `<WORKFLOW_NAME>` becomes the name, every `<WORKFLOW_ID>` the decimal id; the rest is kept. */
  lemma NameIdSubstitution(ps: seq<Piece>, name: string, workflowId: nat)
    requires WellFormed(ps, NameIdPattern)
    ensures MaterializeNameId(Layout(ps), name, workflowId)
         == Fill(ps, tok => if tok == WorkflowNameToken then name else NatToDecimal(workflowId))
  {
    NameIdPatternShape();
    ReplaceAllFills(ps, NameIdPattern, NameIdReplacer(name, workflowId));
    FillAgree(ps, NameIdPattern, NameIdReplacer(name, workflowId),
      tok => if tok == WorkflowNameToken then name else NatToDecimal(workflowId));
  }

  /**
   * The class-name/random-state pattern, despite its empty alternative, replaces exactly the two
   * tokens: `<CLASS_NAME>` by the quoted class name, `<RANDOM_STATE>` by the decimal seed.
   */
  lemma ClassStateSubstitution(ps: seq<Piece>, className: string, randomState: nat)
    requires WellFormed(ps, [ClassNameToken, RandomStateToken])
    ensures MaterializeClassState(Layout(ps), className, randomState)
         == Fill(ps, tok => if tok == ClassNameToken then ClassNameLiteral(className) else NatToDecimal(randomState))
  {
    var f := ClassStateReplacer(className, randomState);
    var two := [ClassNameToken, RandomStateToken];
    assert ClassStatePattern == two + [[]];
    EmptyAlternativeInert(Layout(ps), two, f);
    ClassStateTokensShape();
    assert ClassStatePattern[..2] == two;
    ReplaceAllFills(ps, two, f);
    FillAgree(ps, two, f,
      tok => if tok == ClassNameToken then ClassNameLiteral(className) else NatToDecimal(randomState));
  }

  /** Every `<DATASET_NAME>` becomes the dataset name; the rest is kept. */
  lemma MainYmlSubstitution(ps: seq<Piece>, datasetName: string)
    requires WellFormed(ps, [DatasetNameToken])
    ensures MainYml(Layout(ps), datasetName) == Fill(ps, _ => datasetName)
  {
    assert PrefixFree([DatasetNameToken]);
    ReplaceAllFills(ps, [DatasetNameToken], _ => datasetName);
  }

  /** Two callbacks that agree on the pattern's tokens fill a well-formed template alike. */
  lemma {:induction false} FillAgree(ps: seq<Piece>, alts: seq<string>, f: Replacer, g: Replacer)
    requires WellFormed(ps, alts)
    requires forall tok :: tok in alts ==> f(tok) == g(tok)
    ensures Fill(ps, f) == Fill(ps, g)
  {
    if ps != [] {
      FillAgree(ps[1..], alts, f, g);
    }
  }

  /**
   * A script template whose header names its author with an e-mail address in angle brackets is
   * well-formed for the class-name/random-state pattern, so ClassStateSubstitution describes it.
   */
  lemma AuthorLineTemplate(author: string, email: string)
    requires forall k :: 0 <= k < |author| ==> author[k] != '<'
    requires forall k :: 0 <= k < |email| ==> email[k] != '<'
    requires email != [] && 'a' <= email[0] <= 'z'
    ensures var header := "# " + author + " <" + email + ">\n";
      WellFormed([Lit(header), Slot(ClassNameToken), Lit("\n"), Slot(RandomStateToken)],
                 [ClassNameToken, RandomStateToken])
  {
    var two := [ClassNameToken, RandomStateToken];
    var pre := "# " + author + " ";
    var post := email + ">\n";
    var header := "# " + author + " <" + email + ">\n";
    assert header == pre + "<" + post;
    var ps := [Lit(header), Slot(ClassNameToken), Lit("\n"), Slot(RandomStateToken)];
    forall k | 0 <= k < |header| && header[k] == '<'
      ensures k + 1 < |header| && forall j :: 0 <= j < |two| ==> header[k + 1] != two[j][1]
    {
      assert k == |pre|;
      assert header[k + 1] == post[0] == email[0];
    }
    var tail := [Slot(ClassNameToken), Lit("\n"), Slot(RandomStateToken)];
    assert ps[1..] == tail;
    assert tail[1..] == [Lit("\n"), Slot(RandomStateToken)];
    assert tail[1..][1..] == [Slot(RandomStateToken)];
    assert tail[1..][1..][1..] == [];
    LiteralWithoutToken(header, Layout(tail), two);
    LiteralWithoutToken("\n", Layout(tail[1..][1..]), two);
    assert WellFormed(tail[1..][1..], two);
    assert WellFormed(tail[1..], two);
    assert WellFormed(tail, two);
  }
}
