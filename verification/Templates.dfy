/**
 * Message templates: the `{{name}}` scanner, variable extraction and validation, and the
 * single-pass substitution that must agree with them.
 */
module Templates {
  import opened Prelude
  import DedupeKeys

  // ----- the scanner: the global regular expression \{\{(\w+)\}\} -----

  predicate IsWordChar(c: char) {
    'a' <= c <= 'z' || 'A' <= c <= 'Z' || '0' <= c <= '9' || c == '_'
  }

  /** In character codes: digits, capitals, the underscore, small letters. */
  lemma WordCharIs(c: char)
    ensures IsWordChar(c) <==>
      48 <= c as int <= 57 || 65 <= c as int <= 90 || c as int == 95 || 97 <= c as int <= 122
  {
  }

  /** Length of the word at the start of the text. */
  function WordRun(s: string): (n: nat)
    ensures n <= |s| && (forall i :: 0 <= i < n ==> IsWordChar(s[i])) && (n < |s| ==> !IsWordChar(s[n]))
  {
    if s == [] || !IsWordChar(s[0]) then 0 else 1 + WordRun(s[1..])
  }

  /** The name of the placeholder the text starts with, if it starts with one. */
  function Match(s: string): (m: Option<string>)
    ensures m.Some? ==> 0 < |m.value| && |m.value| + 4 <= |s|
  {
    if |s| >= 2 && s[0] == '{' && s[1] == '{' then
      var n := WordRun(s[2..]);
      if n > 0 && |s| >= n + 4 && s[n + 2] == '}' && s[n + 3] == '}' then Some(s[2..n + 2]) else None
    else None
  }

  datatype Token = Lit(c: char) | Var(name: string)

  function FirstToken(s: string): Token
    requires s != []
  {
    if Match(s).Some? then Var(Match(s).value) else Lit(s[0])
  }

  /** How far one step of the scanner moves. */
  function Skip(s: string): (k: nat)
    requires s != []
    ensures 0 < k <= |s|
  {
    if Match(s).Some? then |Match(s).value| + 4 else 1
  }

  function Scan(s: string): seq<Token>
    decreases |s|
  {
    if s == [] then [] else [FirstToken(s)] + Scan(s[Skip(s)..])
  }

  function TokenText(t: Token): string {
    match t
    case Lit(c) => [c]
    case Var(name) => "{{" + name + "}}"
  }

  function Unscan(tokens: seq<Token>): string {
    if tokens == [] then [] else TokenText(tokens[0]) + Unscan(tokens[1..])
  }

  // ----- which placeholders are found -----

  predicate IsNeutral(c: char) {
    !IsWordChar(c) && c != '{' && c != '}'
  }

  predicate IsName(name: string) {
    name != [] && forall i :: 0 <= i < |name| ==> IsWordChar(name[i])
  }

  /** The placeholder text stands at offset i, said without any scanning. */
  predicate OccursAt(s: string, i: nat, name: string) {
    IsName(name) && i + |name| + 4 <= |s| && s[i..i + |name| + 4] == "{{" + name + "}}"
  }

  lemma OccurrenceChars(s: string, i: nat, name: string)
    requires OccursAt(s, i, name)
    ensures s[i] == '{' && s[i + 1] == '{' && s[i + |name| + 2] == '}' && s[i + |name| + 3] == '}'
    ensures forall k :: 0 <= k < |name| ==> s[i + 2 + k] == name[k]
  {
    var t := "{{" + name + "}}";
    assert forall k :: 0 <= k < |t| ==> s[i..i + |name| + 4][k] == t[k];
    assert s[i] == s[i..i + |name| + 4][0] && s[i + 1] == s[i..i + |name| + 4][1];
    assert s[i + |name| + 2] == s[i..i + |name| + 4][|name| + 2];
    assert s[i + |name| + 3] == s[i..i + |name| + 4][|name| + 3];
    forall k | 0 <= k < |name| ensures s[i + 2 + k] == name[k] {
      assert s[i..i + |name| + 4][k + 2] == t[k + 2];
    }
  }

  lemma {:induction false} WordRunIs(s: string, n: nat)
    requires n < |s| && (forall i :: 0 <= i < n ==> IsWordChar(s[i])) && !IsWordChar(s[n])
    ensures WordRun(s) == n
  {
    if n > 0 { WordRunIs(s[1..], n - 1); }
  }

  /** The regular expression matches at the front exactly when a placeholder stands there. */
  lemma MatchIsOccurrence(s: string, name: string)
    ensures Match(s) == Some(name) <==> OccursAt(s, 0, name)
  {
    if OccursAt(s, 0, name) {
      OccurrenceChars(s, 0, name);
      forall i | 0 <= i < |name| ensures IsWordChar(s[2..][i]) { assert s[2..][i] == name[i]; }
      WordRunIs(s[2..], |name|);
      assert s[2..|name| + 2] == name;
    }
    if Match(s) == Some(name) {
      var n := WordRun(s[2..]);
      assert name == s[2..n + 2];
      forall i | 0 <= i < |name| ensures IsWordChar(name[i]) { assert name[i] == s[2..][i]; }
      assert s[0..|name| + 4] == "{{" + name + "}}";
    }
  }

  lemma FirstTokenText(s: string)
    requires s != []
    ensures TokenText(FirstToken(s)) == s[..Skip(s)]
  {
    if Match(s).Some? { MatchIsOccurrence(s, Match(s).value); }
  }

  /** Nothing of the template is lost or reordered by scanning. */
  lemma {:induction false} ScanIsLossless(s: string)
    ensures Unscan(Scan(s)) == s
    decreases |s|
  {
    if s != [] {
      FirstTokenText(s);
      ScanIsLossless(s[Skip(s)..]);
      assert Scan(s)[1..] == Scan(s[Skip(s)..]);
      assert s == s[..Skip(s)] + s[Skip(s)..];
    }
  }

  lemma OccurrenceNotNeutral(s: string, name: string)
    requires OccursAt(s, 0, name)
    ensures forall k :: 2 <= k < |name| + 2 ==> IsWordChar(s[k])
    ensures forall k :: 0 <= k < |name| + 4 ==> !IsNeutral(s[k])
  {
    OccurrenceChars(s, 0, name);
    forall k | 2 <= k < |name| + 2 ensures IsWordChar(s[k]) { assert s[0 + 2 + (k - 2)] == name[k - 2]; }
  }

  /** A placeholder cannot start inside another one. */
  lemma NoOverlap(s: string, name: string, i: nat, other: string)
    requires OccursAt(s, 0, name) && OccursAt(s, i, other) && i > 0
    ensures i >= |name| + 4
  {
    OccurrenceChars(s, 0, name);
    OccurrenceChars(s, i, other);
    OccurrenceNotNeutral(s, name);
    assert !IsWordChar(s[i]) && !IsWordChar(s[i + 1]);
    assert i != 1 && !(2 <= i < |name| + 2);
  }

  lemma OccursInSuffix(s: string, k: nat, i: nat, name: string)
    requires k <= i && k <= |s|
    ensures OccursAt(s, i, name) <==> OccursAt(s[k..], i - k, name)
  {
    if i + |name| + 4 <= |s| { assert s[i..i + |name| + 4] == s[k..][i - k..i - k + |name| + 4]; }
  }

  /** The scanner reports the placeholder `name` at offset i. */
  ghost predicate Found(s: string, i: nat, name: string)
    decreases |s|
  {
    s != [] && if i == 0 then FirstToken(s) == Var(name) else i >= Skip(s) && Found(s[Skip(s)..], i - Skip(s), name)
  }

  lemma FirstTokenIsOccurrence(s: string, name: string)
    requires s != []
    ensures FirstToken(s) == Var(name) <==> OccursAt(s, 0, name)
  {
    MatchIsOccurrence(s, name);
  }

  /** The scanner finds every placeholder occurrence in the text, and nothing else. */
  lemma {:induction false} FoundIsEveryOccurrence(s: string, i: nat, name: string)
    ensures Found(s, i, name) <==> OccursAt(s, i, name)
    decreases |s|
  {
    hide Match, WordRun, FirstToken, Skip;
    if s != [] {
      FirstTokenIsOccurrence(s, name);
      if i > 0 {
        if OccursAt(s, i, name) { StepsOver(s, i, name); }
        if i >= Skip(s) {
          FoundIsEveryOccurrence(s[Skip(s)..], i - Skip(s), name);
          OccursInSuffix(s, Skip(s), i, name);
        }
      }
    }
  }

  /** A step of the scanner never runs past a placeholder that starts later. */
  lemma StepsOver(s: string, i: nat, name: string)
    requires OccursAt(s, i, name) && i > 0
    ensures Skip(s) <= i
  {
    if Match(s).Some? {
      MatchIsOccurrence(s, Match(s).value);
      NoOverlap(s, Match(s).value, i, name);
    }
  }

  function Names(tokens: seq<Token>): seq<string> {
    if tokens == [] then []
    else if tokens[0].Var? then [tokens[0].name] + Names(tokens[1..])
    else Names(tokens[1..])
  }

  ghost predicate IsFound(s: string, name: string) {
    exists i: nat :: Found(s, i, name)
  }

  /** The placeholder stands somewhere in the text. */
  ghost predicate Mentions(s: string, name: string) {
    exists i: nat :: OccursAt(s, i, name)
  }

  lemma FoundStep(s: string, name: string)
    requires s != []
    ensures IsFound(s, name) <==> FirstToken(s) == Var(name) || IsFound(s[Skip(s)..], name)
  {
    if IsFound(s[Skip(s)..], name) {
      var i: nat :| Found(s[Skip(s)..], i, name);
      assert Found(s, i + Skip(s), name);
    }
    if FirstToken(s) == Var(name) { assert Found(s, 0, name); }
    if IsFound(s, name) {
      var i: nat :| Found(s, i, name);
      assert i == 0 || Found(s[Skip(s)..], i - Skip(s), name);
    }
  }

  lemma {:induction false} NamesAreFound(s: string, name: string)
    ensures name in Names(Scan(s)) <==> IsFound(s, name)
    decreases |s|
  {
    if s == [] {
      assert !IsFound(s, name);
    } else {
      FoundStep(s, name);
      NamesAreFound(s[Skip(s)..], name);
      assert Scan(s)[1..] == Scan(s[Skip(s)..]);
    }
  }

  /** A name is among the scanned variables exactly when its placeholder occurs somewhere. */
  lemma ScannedIffMentioned(s: string, name: string)
    ensures name in Names(Scan(s)) <==> Mentions(s, name)
  {
    NamesAreFound(s, name);
    forall i: nat ensures Found(s, i, name) <==> OccursAt(s, i, name) { FoundIsEveryOccurrence(s, i, name); }
    if Mentions(s, name) {
      var i: nat :| OccursAt(s, i, name);
      assert Found(s, i, name);
    }
    if IsFound(s, name) {
      var i: nat :| Found(s, i, name);
      assert OccursAt(s, i, name);
    }
  }

  // ----- scanning "subject body" in one go -----

  lemma MatchStopsAtNeutral(a: string, c: char, b: string)
    requires a != [] && IsNeutral(c)
    ensures Match(a + [c] + b) == Match(a)
  {
    var s := a + [c] + b;
    forall name ensures Match(s) == Some(name) <==> Match(a) == Some(name) {
      MatchIsOccurrence(s, name);
      MatchIsOccurrence(a, name);
      if OccursAt(a, 0, name) { assert s[0..|name| + 4] == a[0..|name| + 4]; }
      if OccursAt(s, 0, name) {
        OccurrenceNotNeutral(s, name);
        assert s[|a|] == c;
        assert s[0..|name| + 4] == a[0..|name| + 4];
      }
    }
    if Match(s).Some? { assert Match(a) == Some(Match(s).value); }
    if Match(a).Some? { assert Match(s) == Some(Match(a).value); }
  }

  lemma {:induction false} ScanSplitsAtNeutral(a: string, c: char, b: string)
    requires IsNeutral(c)
    ensures Scan(a + [c] + b) == Scan(a) + [Lit(c)] + Scan(b)
    decreases |a|
  {
    var s := a + [c] + b;
    if a == [] {
      assert s == [c] + b && s[1..] == b;
      assert Match(s) == None;
    } else {
      MatchStopsAtNeutral(a, c, b);
      var k := Skip(a);
      assert FirstToken(s) == FirstToken(a) && Skip(s) == k;
      hide Match, WordRun, FirstToken, Skip;
      assert s[k..] == a[k..] + [c] + b;
      ScanSplitsAtNeutral(a[k..], c, b);
      Regroup(FirstToken(a), Scan(a[k..]), Lit(c), Scan(b));
    }
  }

  lemma Regroup(first: Token, x: seq<Token>, mid: Token, y: seq<Token>)
    ensures [first] + (x + [mid] + y) == ([first] + x) + [mid] + y
  {
  }

  lemma {:induction false} NamesConcat(s: seq<Token>, t: seq<Token>)
    ensures Names(s + t) == Names(s) + Names(t)
  {
    if s == [] {
      assert s + t == t;
    } else {
      assert (s + t)[1..] == s[1..] + t;
      NamesConcat(s[1..], t);
    }
  }

  /** Scanning `subject + ' ' + body` finds the placeholders of the subject, then those of the body. */
  lemma SubjectThenBody(subject: string, body: string)
    ensures Names(Scan(subject + " " + body)) == Names(Scan(subject)) + Names(Scan(body))
  {
    hide Match, WordRun, Scan;
    ScanSplitsAtNeutral(subject, ' ', body);
    NamesConcat(Scan(subject) + [Lit(' ')], Scan(body));
    NamesConcat(Scan(subject), [Lit(' ')]);
    assert Names([Lit(' ')]) == [];
  }

  // ----- extractVariables and validateVariables -----

  /** Names in order of first appearance, each once, after those already in `seen`. */
  function AddNew(seen: seq<string>, names: seq<string>): seq<string>
    decreases |names|
  {
    if names == [] then seen
    else AddNew(if names[0] in seen then seen else seen + [names[0]], names[1..])
  }

  lemma {:induction false} AddNewKeepsAll(seen: seq<string>, names: seq<string>)
    requires Distinct(seen)
    ensures Distinct(AddNew(seen, names)) && seen <= AddNew(seen, names)
    ensures forall v :: v in AddNew(seen, names) <==> v in seen || v in names
    decreases |names|
  {
    if names != [] {
      AddNewKeepsAll(if names[0] in seen then seen else seen + [names[0]], names[1..]);
    }
  }

  /** The `re.exec` loop. */
  method ExtractVariables(text: string) returns (vars: seq<string>)
    ensures vars == AddNew([], Names(Scan(text)))
    ensures Distinct(vars) && forall v :: v in vars <==> Mentions(text, v)
  {
    vars := [];
    var rest := text;
    while rest != []
      invariant AddNew(vars, Names(Scan(rest))) == AddNew([], Names(Scan(text)))
      decreases |rest|
    {
      assert Scan(rest)[1..] == Scan(rest[Skip(rest)..]);
      var m := Match(rest);
      if m.Some? {
        if m.value !in vars { vars := vars + [m.value]; }
        rest := rest[|m.value| + 4..];
      } else {
        rest := rest[1..];
      }
    }
    AddNewKeepsAll([], Names(Scan(text)));
    forall v ensures v in vars <==> Mentions(text, v) { ScannedIffMentioned(text, v); }
  }

  const ALLOWED_VARIABLES: set<string> := {
    "leadFullName", "leadFirstName", "leadPhone", "leadEmail", "leadWilaya", "leadCommune",
    "agentName", "companyName", "leadBudgetMin", "leadBudgetMax", "leadWantedType"}

  /** Every placeholder anywhere in the text names an allowed variable. */
  ghost predicate OnlyAllowed(text: string) {
    forall name :: Mentions(text, name) ==> name in ALLOWED_VARIABLES
  }

  lemma AllowedIffNames(text: string)
    ensures OnlyAllowed(text) <==> forall v :: v in Names(Scan(text)) ==> v in ALLOWED_VARIABLES
  {
    forall v ensures v in Names(Scan(text)) <==> Mentions(text, v) { ScannedIffMentioned(text, v); }
  }

  /** What is scanned: an absent or empty subject is left out. */
  function AllText(text: string, subject: Option<string>): string {
    if subject.Some? && subject.value != [] then subject.value + " " + text else text
  }

  /** Validating the joined text is validating both parts. */
  lemma AllTextAllowed(text: string, subject: Option<string>)
    ensures OnlyAllowed(AllText(text, subject)) <==>
            OnlyAllowed(text) && (subject.Some? ==> OnlyAllowed(subject.value))
  {
    AllowedIffNames(AllText(text, subject));
    AllowedIffNames(text);
    if subject.Some? {
      AllowedIffNames(subject.value);
      if subject.value != [] { SubjectThenBody(subject.value, text); }
    }
  }

  /** `validateVariables`. */
  method ValidateVariables(text: string, subject: Option<string>) returns (unknown: Option<string>)
    ensures unknown.None? <==> OnlyAllowed(text) && (subject.Some? ==> OnlyAllowed(subject.value))
    ensures unknown.Some? ==> unknown.value !in ALLOWED_VARIABLES
                              && Mentions(AllText(text, subject), unknown.value)
  {
    AllTextAllowed(text, subject);
    var vars := ExtractVariables(AllText(text, subject));
    for i := 0 to |vars|
      invariant forall k :: 0 <= k < i ==> vars[k] in ALLOWED_VARIABLES
    {
      if vars[i] !in ALLOWED_VARIABLES {
        assert vars[i] in vars;
        return Some(vars[i]);
      }
    }
    return None;
  }

  // ----- substitution -----

  type Context = map<string, string>

  /** `context[v] ?? ''` for each placeholder, everything else as it is, in one pass. */
  function Substitute(tokens: seq<Token>, context: Context): string {
    if tokens == [] then []
    else
      (match tokens[0]
       case Lit(c) => [c]
       case Var(name) => if name in context then context[name] else "")
      + Substitute(tokens[1..], context)
  }

  lemma {:induction false} SubstituteConcat(s: seq<Token>, t: seq<Token>, context: Context)
    ensures Substitute(s + t, context) == Substitute(s, context) + Substitute(t, context)
  {
    if s == [] {
      assert s + t == t;
    } else {
      assert (s + t)[1..] == s[1..] + t;
      SubstituteConcat(s[1..], t, context);
    }
  }

  /** The tokens before an occurrence are those of the text before it. */
  lemma {:induction false} ScanSplitsAtOccurrence(s: string, i: nat, j: nat, name: string)
    requires OccursAt(s, i, name) && j == i + |name| + 4
    ensures Scan(s) == Scan(s[..i]) + [Var(name)] + Scan(s[j..])
    decreases |s|
  {
    hide Match, WordRun, Scan, FirstToken, Skip;
    if i == 0 {
      SplitAtFront(s, j, name);
    } else {
      var k := Skip(s);
      StepsOver(s, i, name);
      OccursInSuffix(s, k, i, name);
      ScanSplitsAtOccurrence(s[k..], i - k, j - k, name);
      SameCuts(s, k, i, j);
      SplitStep(s, i, j, Scan(s[..i][k..]), Var(name));
    }
  }

  lemma SplitAtFront(s: string, j: nat, name: string)
    requires OccursAt(s, 0, name) && j == |name| + 4
    ensures Scan(s) == Scan(s[..0]) + [Var(name)] + Scan(s[j..])
  {
    MatchIsOccurrence(s, name);
    assert s[..0] == [];
  }

  lemma ScanOnce(s: string)
    requires s != []
    ensures Scan(s) == [FirstToken(s)] + Scan(s[Skip(s)..])
  {
  }

  lemma SameCuts(s: string, k: nat, i: nat, j: nat)
    requires k <= i <= j <= |s|
    ensures s[k..][..i - k] == s[..i][k..] && s[k..][j - k..] == s[j..]
  {
  }

  lemma SplitStep(s: string, i: nat, j: nat, head: seq<Token>, mid: Token)
    requires 0 < i <= j <= |s| && Skip(s) <= i
    requires head == Scan(s[..i][Skip(s)..]) && Scan(s[Skip(s)..]) == head + [mid] + Scan(s[j..])
    ensures Scan(s) == Scan(s[..i]) + [mid] + Scan(s[j..])
  {
    hide Match, WordRun, Scan, FirstToken, Skip;
    PrefixStep(s, i);
    ScanOnce(s);
    ScanOnce(s[..i]);
    Regroup(FirstToken(s), head, mid, Scan(s[j..]));
  }

  /** Cutting a text beyond its first token does not change that token. */
  lemma PrefixStep(s: string, i: nat)
    requires 0 < i <= |s| && Skip(s) <= i
    ensures FirstToken(s[..i]) == FirstToken(s) && Skip(s[..i]) == Skip(s)
  {
    if Match(s).Some? {
      var name := Match(s).value;
      MatchIsOccurrence(s, name);
      assert s[..i][0..|name| + 4] == s[0..|name| + 4];
      MatchIsOccurrence(s[..i], name);
    }
    if Match(s[..i]).Some? {
      var name := Match(s[..i]).value;
      MatchIsOccurrence(s[..i], name);
      assert s[..i][0..|name| + 4] == s[0..|name| + 4];
      MatchIsOccurrence(s, name);
    }
  }

  /**
   * Around any placeholder the output is: what comes before, the variable's own value verbatim
   * (placeholder text inside it is not rescanned), what follows.
   */
  lemma ValueStandsVerbatim(s: string, i: nat, j: nat, name: string, context: Context)
    requires OccursAt(s, i, name) && j == i + |name| + 4 && name in context
    ensures Substitute(Scan(s), context) ==
            Substitute(Scan(s[..i]), context) + context[name] + Substitute(Scan(s[j..]), context)
  {
    hide Match, WordRun, Scan, Substitute;
    ScanSplitsAtOccurrence(s, i, j, name);
    SubstituteMiddle(Scan(s[..i]), name, Scan(s[j..]), context);
  }

  lemma SubstituteMiddle(before: seq<Token>, name: string, after: seq<Token>, context: Context)
    requires name in context
    ensures Substitute(before + [Var(name)] + after, context) ==
            Substitute(before, context) + context[name] + Substitute(after, context)
  {
    SubstituteConcat(before + [Var(name)], after, context);
    SubstituteConcat(before, [Var(name)], context);
    assert [Var(name)][1..] == [];
    assert Substitute([Var(name)], context) == context[name];
  }

  /** A text without placeholders is left alone. */
  lemma {:induction false} NoPlaceholderNoChange(s: string, context: Context)
    requires forall name :: !Mentions(s, name)
    ensures Substitute(Scan(s), context) == s
    decreases |s|
  {
    if s != [] {
      if Match(s).Some? {
        MatchIsOccurrence(s, Match(s).value);
        assert Mentions(s, Match(s).value);
      }
      forall name ensures !Mentions(s[1..], name) {
        forall i: nat ensures !OccursAt(s[1..], i, name) {
          OccursInSuffix(s, 1, i + 1, name);
          assert !Mentions(s, name);
        }
      }
      NoPlaceholderNoChange(s[1..], context);
      assert Scan(s)[1..] == Scan(s[1..]);
    }
  }

  // ----- the context -----

  datatype LeadData = LeadData(
    fullName: string, phone: Option<string>, email: Option<string>, wilaya: Option<string>, commune: Option<string>,
    budgetMin: Option<int>, budgetMax: Option<int>, propertyType: Option<string>)

  /** `fullName.split(' ')[0]`. */
  function FirstWord(s: string): string {
    if s == [] || s[0] == ' ' then [] else [s[0]] + FirstWord(s[1..])
  }

  function BuildContext(lead: LeadData, company: Option<string>, agent: Option<string>): (context: Context)
    ensures context.Keys == ALLOWED_VARIABLES
  {
    map["leadFullName" := lead.fullName, "leadFirstName" := FirstWord(lead.fullName),
        "leadPhone" := OrEmpty(lead.phone), "leadEmail" := OrEmpty(lead.email),
        "leadWilaya" := OrEmpty(lead.wilaya), "leadCommune" := OrEmpty(lead.commune),
        "agentName" := OrEmpty(agent), "companyName" := OrEmpty(company),
        "leadBudgetMin" := DedupeKeys.OptionalIntText(lead.budgetMin),
        "leadBudgetMax" := DedupeKeys.OptionalIntText(lead.budgetMax),
        "leadWantedType" := OrEmpty(lead.propertyType)]
  }

  // ----- what a placeholder shows -----

  lemma {:induction false} FirstWordIs(s: string)
    ensures FirstWord(s) <= s && ' ' !in FirstWord(s)
    ensures |FirstWord(s)| < |s| ==> s[|FirstWord(s)|] == ' '
  {
    if s != [] && s[0] != ' ' { FirstWordIs(s[1..]); }
  }

  /** The text belongs to the variable: its own field of the lead, of the company or of the agent. */
  ghost predicate IsOwnValue(name: string, shown: string, lead: LeadData, company: Option<string>,
                             agent: Option<string>) {
    && (name == "leadFullName" ==> shown == lead.fullName)
    && (name == "leadFirstName" ==>  // up to the first space
          && shown <= lead.fullName && ' ' !in shown
          && (|shown| < |lead.fullName| ==> lead.fullName[|shown|] == ' '))
    && (name == "leadPhone" ==> shown == OrEmpty(lead.phone))
    && (name == "leadEmail" ==> shown == OrEmpty(lead.email))
    && (name == "leadWilaya" ==> shown == OrEmpty(lead.wilaya))
    && (name == "leadCommune" ==> shown == OrEmpty(lead.commune))
    && (name == "agentName" ==> shown == OrEmpty(agent))
    && (name == "companyName" ==> shown == OrEmpty(company))
    && (name == "leadBudgetMin" ==> DedupeKeys.ParseOptionalInt(shown) == lead.budgetMin)
    && (name == "leadBudgetMax" ==> DedupeKeys.ParseOptionalInt(shown) == lead.budgetMax)
    && (name == "leadWantedType" ==> shown == OrEmpty(lead.propertyType))
  }

  lemma ContextHoldsOwnValues(name: string, lead: LeadData, company: Option<string>, agent: Option<string>)
    requires name in ALLOWED_VARIABLES
    ensures IsOwnValue(name, BuildContext(lead, company, agent)[name], lead, company, agent)
  {
    FirstWordIs(lead.fullName);
    DedupeKeys.OptionalIntReadsBack(lead.budgetMin);
    DedupeKeys.OptionalIntReadsBack(lead.budgetMax);
    hide FirstWord, OrEmpty, DedupeKeys.OptionalIntText, DedupeKeys.ParseOptionalInt;
  }

  /** Wherever a variable stands in a template, the output shows its own value there, whatever stands around it. */
  lemma PlaceholderShowsOwnValue(
      body: string, i: nat, j: nat, name: string, lead: LeadData, company: Option<string>, agent: Option<string>)
    requires OccursAt(body, i, name) && j == i + |name| + 4 && name in ALLOWED_VARIABLES
    ensures var context := BuildContext(lead, company, agent);
      exists shown :: IsOwnValue(name, shown, lead, company, agent) &&
        Substitute(Scan(body), context) ==
        Substitute(Scan(body[..i]), context) + shown + Substitute(Scan(body[j..]), context)
  {
    hide Match, WordRun, Scan, Substitute, IsOwnValue;
    ValueStandsVerbatim(body, i, j, name, BuildContext(lead, company, agent));
    ContextHoldsOwnValues(name, lead, company, agent);
  }

  /** A validated template has no other placeholders, so none gets the empty default. */
  lemma ValidatedHasOwnValue(
      body: string, i: nat, j: nat, name: string, lead: LeadData, company: Option<string>, agent: Option<string>)
    requires OnlyAllowed(body) && OccursAt(body, i, name) && j == i + |name| + 4
    ensures var context := BuildContext(lead, company, agent);
      exists shown :: IsOwnValue(name, shown, lead, company, agent) &&
        Substitute(Scan(body), context) ==
        Substitute(Scan(body[..i]), context) + shown + Substitute(Scan(body[j..]), context)
  {
    hide Match, WordRun, Scan, Substitute, IsOwnValue;
    assert Mentions(body, name);
    PlaceholderShowsOwnValue(body, i, j, name, lead, company, agent);
  }

  lemma {:induction false} SubstituteAgrees(tokens: seq<Token>, a: Context, b: Context)
    requires forall name :: name in Names(tokens) ==> (name in a <==> name in b) && (name in a ==> a[name] == b[name])
    ensures Substitute(tokens, a) == Substitute(tokens, b)
  {
    if tokens != [] {
      assert forall name :: name in Names(tokens[1..]) ==> name in Names(tokens);
      assert tokens[0].Var? ==> tokens[0].name in Names(tokens);
      SubstituteAgrees(tokens[1..], a, b);
    }
  }

  /** The fields a variable is about are equal in two leads, companies and agents. */
  predicate SameFields(name: string, a: LeadData, companyA: Option<string>, agentA: Option<string>,
                       b: LeadData, companyB: Option<string>, agentB: Option<string>) {
    && (name in {"leadFullName", "leadFirstName"} ==> a.fullName == b.fullName)
    && (name == "leadPhone" ==> OrEmpty(a.phone) == OrEmpty(b.phone))
    && (name == "leadEmail" ==> OrEmpty(a.email) == OrEmpty(b.email))
    && (name == "leadWilaya" ==> OrEmpty(a.wilaya) == OrEmpty(b.wilaya))
    && (name == "leadCommune" ==> OrEmpty(a.commune) == OrEmpty(b.commune))
    && (name == "agentName" ==> OrEmpty(agentA) == OrEmpty(agentB))
    && (name == "companyName" ==> OrEmpty(companyA) == OrEmpty(companyB))
    && (name == "leadBudgetMin" ==> a.budgetMin == b.budgetMin)
    && (name == "leadBudgetMax" ==> a.budgetMax == b.budgetMax)
    && (name == "leadWantedType" ==> OrEmpty(a.propertyType) == OrEmpty(b.propertyType))
  }

  /** Nothing but the fields of the variables a template mentions shows in its text. */
  lemma OnlyMentionedFieldsShow(body: string, a: LeadData, companyA: Option<string>, agentA: Option<string>,
                                b: LeadData, companyB: Option<string>, agentB: Option<string>)
    requires forall name :: Mentions(body, name) ==> SameFields(name, a, companyA, agentA, b, companyB, agentB)
    ensures Substitute(Scan(body), BuildContext(a, companyA, agentA))
            == Substitute(Scan(body), BuildContext(b, companyB, agentB))
  {
    var contextA, contextB := BuildContext(a, companyA, agentA), BuildContext(b, companyB, agentB);
    forall name | name in Names(Scan(body))
      ensures (name in contextA <==> name in contextB) && (name in contextA ==> contextA[name] == contextB[name])
    {
      ScannedIffMentioned(body, name);
      if name in ALLOWED_VARIABLES { SameFieldsSameValue(name, a, companyA, agentA, b, companyB, agentB); }
    }
    SubstituteAgrees(Scan(body), contextA, contextB);
  }

  lemma SameFieldsSameValue(name: string, a: LeadData, companyA: Option<string>, agentA: Option<string>,
                            b: LeadData, companyB: Option<string>, agentB: Option<string>)
    requires SameFields(name, a, companyA, agentA, b, companyB, agentB) && name in ALLOWED_VARIABLES
    ensures BuildContext(a, companyA, agentA)[name] == BuildContext(b, companyB, agentB)[name]
  {
    hide FirstWord, OrEmpty, DedupeKeys.OptionalIntText;
  }
}
