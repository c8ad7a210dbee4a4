/**
 Conversion of JSON-like values with placeholders to HCL tokens, and what the tokens evaluate to.

 The placeholder pattern belongs to the graph library: a predicate on strings and a search that finds the
 leftmost match.  An expression evaluates to a symbolic meaning in which references stay symbols and an
 interpolated string is its parts.  Nothing stands for a value that produced no tokens.
 */
module Tokens {
  import opened Basics

  datatype Value = Null | Scalar(n: int) | Str(s: string) | List(items: seq<Value>) | Object(entries: seq<(string, Value)>)

  datatype Token =
    | OQuote | CQuote | Lit(text: string) | InterpBegin | InterpEnd
    | OBrace | CBrace | OBrack | CBrack | Newline | Comma | Equal
    | Ident(name: string) | Number(n: int) | Traversal(path: seq<string>)

  datatype SubKind = ResourceKind | SelectorKind | VarKind | ContextKind

  /** A resource placeholder has no path while unresolved; a context key may be unknown. */
  datatype Sub = Resource(path: Option<seq<string>>) | Selector(paths: seq<seq<string>>) | Var(key: string) | Context(text: Option<string>)

  function KindOf(s: Sub): SubKind {
    match s case Resource(_) => ResourceKind case Selector(_) => SelectorKind case Var(_) => VarKind case Context(_) => ContextKind
  }

  /** What convertToTokens is called with, and the library's and HCL's lexical rules. */
  datatype Env = Env(
    isPlaceholder: string -> bool,
    find: string -> Option<(nat, nat)>,
    subs: map<string, Sub>,
    supported: set<SubKind>,
    isIdentifier: string -> bool)

  /** Assumed of the pattern search: it finds a leftmost, non-empty match if there is one. */
  ghost predicate Lexical(env: Env) {
    forall s :: FindsLeftmost(env, s)
  }

  ghost predicate FindsLeftmost(env: Env, s: string) {
    match env.find(s)
    case None => forall p, q :: 0 <= p < q <= |s| ==> !env.isPlaceholder(s[p..q])
    case Some((i, j)) =>
      && i < j <= |s| && env.isPlaceholder(s[i..j])
      && forall p, q :: 0 <= p < i && p < q <= |s| ==> !env.isPlaceholder(s[p..q])
  }

  // ---------------------------------------------------------------- strings

  datatype Segment = Literal(text: string) | Placeholder(text: string)

  /** Literal and placeholder pieces of a string, in order. */
  ghost function Segments(env: Env, s: string): seq<Segment>
    requires Lexical(env)
    decreases |s|
  {
    assert FindsLeftmost(env, s);
    match env.find(s)
    case None => if s == [] then [] else [Literal(s)]
    case Some((i, j)) => (if i > 0 then [Literal(s[..i])] else []) + [Placeholder(s[i..j])] + Segments(env, s[j..])
  }

  function Text(segments: seq<Segment>): string {
    if segments == [] then [] else segments[0].text + Text(segments[1..])
  }

  lemma {:induction false} TextConcat(a: seq<Segment>, b: seq<Segment>)
    ensures Text(a + b) == Text(a) + Text(b)
    decreases |a|
  {
    if a == [] { assert a + b == b; }
    else {
      assert (a + b)[1..] == a[1..] + b;
      TextConcat(a[1..], b);
    }
  }

  /** The segments tile the string exactly: nothing is lost, repeated or reordered. */
  lemma {:induction false} SegmentsTile(env: Env, s: string)
    requires Lexical(env)
    ensures Text(Segments(env, s)) == s
    decreases |s|
  {
    assert FindsLeftmost(env, s);
    hide Lexical;
    match env.find(s)
    case None => assert Text([Literal(s)]) == s + Text([]) by { assert [Literal(s)][1..] == []; }
    case Some((i, j)) =>
      var head, rest := if i > 0 then [Literal(s[..i])] else [], Segments(env, s[j..]);
      SegmentsTile(env, s[j..]);
      hide Segments, FindsLeftmost;
      TextConcat(head + [Placeholder(s[i..j])], rest);
      TextConcat(head, [Placeholder(s[i..j])]);
      OneText(Placeholder(s[i..j]));
      OneText(Literal(s[..i]));
      assert s == s[..i] + s[i..j] + s[j..];
  }

  lemma OneText(segment: Segment)
    ensures Text([segment]) == segment.text
  {
    assert [segment][1..] == [];
  }

  function Placeholders(segments: seq<Segment>): seq<string> {
    if segments == [] then []
    else (if segments[0].Placeholder? then [segments[0].text] else []) + Placeholders(segments[1..])
  }

  /** strings.ReplaceAll of an escaped opening by a plain one */
  function Unescape(s: string): string {
    if |s| >= 3 && s[0] == '$' && s[1] == '\\' && s[2] == '{' then "${" + Unescape(s[3..])
    else if s == [] then [] else [s[0]] + Unescape(s[1..])
  }

  /** hclwrite.TokensForValue of a string: an empty string has no literal token. */
  function Quoted(s: string): seq<Token> {
    if s == [] then [OQuote, CQuote] else [OQuote, Lit(s), CQuote]
  }

  /** placeholderToTokens; a placeholder without substitution or resource yields no tokens and no error. */
  function PlaceholderTokens(env: Env, text: string): Result<seq<Token>> {
    if text !in env.subs then Ok([])
    else if KindOf(env.subs[text]) !in env.supported then Err(Other)
    else match env.subs[text]
      case Selector(paths) => Ok([OBrack] + TupleTokens(paths) + [CBrack])
      case Resource(Some(path)) => Ok([Traversal(path)])
      case Resource(None) => Ok([])
      case Var(key) => Ok([Traversal(["var", key])])
      case Context(Some(value)) => Ok(Quoted(value))
      case Context(None) => Err(Other)
  }

  function TupleTokens(paths: seq<seq<string>>): seq<Token> {
    if paths == [] then []
    else [Traversal(paths[0])] + (if |paths| > 1 then [Comma] else []) + TupleTokens(paths[1..])
  }

  function TemplateTokens(env: Env, segments: seq<Segment>): Result<seq<Token>> {
    if segments == [] then Ok([])
    else
      var first := match segments[0]
        case Literal(text) => Ok([Lit(Unescape(text))])
        case Placeholder(text) =>
          var inner := PlaceholderTokens(env, text);
          if inner.Err? then inner else Ok([InterpBegin] + inner.value + [InterpEnd]);
      if first.Err? then first
      else
        var rest := TemplateTokens(env, segments[1..]);
        if rest.Err? then rest else Ok(first.value + rest.value)
  }

  ghost function StringTokens(env: Env, s: string): Result<seq<Token>>
    requires Lexical(env)
  {
    var segments := Segments(env, s);
    if Placeholders(segments) == [] then Ok(Quoted(Unescape(s)))
    else if segments == [Placeholder(s)] then PlaceholderTokens(env, s)
    else Enclose(TemplateTokens(env, segments))
  }

  // ---------------------------------------------------------------- values

  function KeyTokens(env: Env, key: string): seq<Token> {
    if env.isIdentifier(key) then [Ident(key)] else Quoted(key)
  }

  ghost function Convert(env: Env, v: Value): Result<seq<Token>>
    requires Lexical(env)
    decreases v, 0
  {
    match v
    case Null => Ok([])
    case Scalar(n) => Ok([Number(n)])
    case Str(s) => StringTokens(env, s)
    case List(items) =>
      var inner := ConvertItems(env, items);
      if inner.Err? then inner else Ok([OBrack, Newline] + inner.value + [CBrack])
    case Object(entries) =>
      var inner := ConvertEntries(env, entries);
      if inner.Err? then inner else Ok([OBrace, Newline] + inner.value + [CBrace])
  }

  ghost function ConvertItems(env: Env, items: seq<Value>): Result<seq<Token>>
    requires Lexical(env)
    decreases items
  {
    if items == [] then Ok([])
    else
      var first := Convert(env, items[0]);
      if first.Err? then first
      else
        var rest := ConvertItems(env, items[1..]);
        if rest.Err? then rest else Ok(first.value + (if |items| > 1 then [Comma] else []) + [Newline] + rest.value)
  }

  ghost function ConvertEntry(env: Env, entry: (string, Value)): Result<seq<Token>>
    requires Lexical(env)
    decreases entry
  {
    Convert(env, entry.1)
  }

  ghost function ConvertEntries(env: Env, entries: seq<(string, Value)>): Result<seq<Token>>
    requires Lexical(env)
    decreases entries
  {
    if entries == [] then Ok([])
    else
      var first := ConvertEntry(env, entries[0]);
      if first.Err? then first
      else
        var rest := ConvertEntries(env, entries[1..]);
        if rest.Err? then rest else Ok(KeyTokens(env, entries[0].0) + [Equal] + first.value + [Newline] + rest.value)
  }

  // ---------------------------------------------------------------- evaluation

  datatype Meaning = Nothing | MNumber(n: int) | Ref(path: seq<string>) | MString(parts: seq<Part>) | MList(items: seq<Meaning>) | MObject(entries: seq<(string, Meaning)>)

  datatype Part = PText(text: string) | Hole(meaning: Meaning)

  datatype Parsed<T> = Fail | Done(value: T, rest: seq<Token>)

  /** Reads one expression from the front of the tokens. */
  function Eval(ts: seq<Token>): (r: Parsed<Meaning>)
    ensures r.Done? ==> |r.rest| < |ts|
    decreases |ts|, 0
  {
    if ts == [] then Fail
    else match ts[0]
      case Number(n) => Done(MNumber(n), ts[1..])
      case Traversal(path) => Done(Ref(path), ts[1..])
      case OQuote =>
        var t := EvalTemplate(ts[1..]);
        if t.Fail? then Fail else Done(MString(t.value), t.rest)
      case OBrack =>
        var t := EvalItems(ts[1..]);
        if t.Fail? then Fail else Done(MList(t.value), t.rest)
      case OBrace =>
        var t := EvalEntries(ts[1..]);
        if t.Fail? then Fail else Done(MObject(t.value), t.rest)
      case _ => Fail
  }

  function EvalTemplate(ts: seq<Token>): (r: Parsed<seq<Part>>)
    ensures r.Done? ==> |r.rest| < |ts|
    decreases |ts|, 1
  {
    if ts == [] then Fail
    else match ts[0]
      case CQuote => Done([], ts[1..])
      case Lit(text) =>
        var t := EvalTemplate(ts[1..]);
        if t.Fail? then Fail else Done([PText(text)] + t.value, t.rest)
      case InterpBegin =>
        var e := Eval(ts[1..]);
        if e.Fail? || e.rest == [] || e.rest[0] != InterpEnd then Fail
        else
          var t := EvalTemplate(e.rest[1..]);
          if t.Fail? then Fail else Done([Hole(e.value)] + t.value, t.rest)
      case _ => Fail
  }

  /** Elements separated by commas; newlines do not matter inside brackets. */
  function EvalItems(ts: seq<Token>): (r: Parsed<seq<Meaning>>)
    ensures r.Done? ==> |r.rest| < |ts|
    decreases |ts|, 1
  {
    if ts == [] then Fail
    else if ts[0] == Newline then EvalItems(ts[1..])
    else if ts[0] == CBrack then Done([], ts[1..])
    else
      var e := Eval(ts);
      if e.Fail? || e.rest == [] then Fail
      else if e.rest[0] == Comma then
        var t := EvalItems(e.rest[1..]);
        if t.Fail? then Fail else Done([e.value] + t.value, t.rest)
      else
        var t := Close(e.rest);
        if t.Fail? then Fail else Done([e.value], t.rest)
  }

  function Close(ts: seq<Token>): (r: Parsed<bool>)
    ensures r.Done? ==> |r.rest| < |ts|
    decreases |ts|
  {
    if ts == [] then Fail
    else if ts[0] == Newline then Close(ts[1..])
    else if ts[0] == CBrack then Done(true, ts[1..])
    else Fail
  }

  function EvalKey(ts: seq<Token>): (r: Parsed<string>)
    ensures r.Done? ==> |r.rest| < |ts|
  {
    if ts == [] then Fail
    else if ts[0].Ident? then Done(ts[0].name, ts[1..])
    else if |ts| >= 2 && ts[0] == OQuote && ts[1] == CQuote then Done([], ts[2..])
    else if |ts| >= 3 && ts[0] == OQuote && ts[1].Lit? && ts[2] == CQuote then Done(ts[1].text, ts[3..])
    else Fail
  }

  /** Entries "key = value", each ended by a newline. */
  function EvalEntries(ts: seq<Token>): (r: Parsed<seq<(string, Meaning)>>)
    ensures r.Done? ==> |r.rest| < |ts|
    decreases |ts|, 1
  {
    if ts == [] then Fail
    else if ts[0] == Newline then EvalEntries(ts[1..])
    else if ts[0] == CBrace then Done([], ts[1..])
    else
      var k := EvalKey(ts);
      if k.Fail? || k.rest == [] || k.rest[0] != Equal then Fail
      else
        var e := Eval(k.rest[1..]);
        if e.Fail? || e.rest == [] || e.rest[0] != Newline then Fail
        else
          var t := EvalEntries(e.rest[1..]);
          if t.Fail? then Fail else Done([(k.value, e.value)] + t.value, t.rest)
  }

  // ---------------------------------------------------------------- the meaning of a value

  function RefsOf(paths: seq<seq<string>>): seq<Meaning> {
    seq(|paths|, k requires 0 <= k < |paths| => Ref(paths[k]))
  }

  function TextMeaning(s: string): Meaning {
    MString(if s == [] then [] else [PText(s)])
  }

  /** What a placeholder stands for. */
  function PlaceholderMeaning(env: Env, text: string): Meaning {
    if text !in env.subs then Nothing
    else match env.subs[text]
      case Selector(paths) => MList(RefsOf(paths))
      case Resource(Some(path)) => Ref(path)
      case Resource(None) => Nothing
      case Var(key) => Ref(["var", key])
      case Context(Some(value)) => TextMeaning(value)
      case Context(None) => Nothing
  }

  function PartOf(env: Env, s: Segment): Part {
    match s case Literal(text) => PText(Unescape(text)) case Placeholder(text) => Hole(PlaceholderMeaning(env, text))
  }

  function PartsOf(env: Env, segments: seq<Segment>): seq<Part> {
    seq(|segments|, k requires 0 <= k < |segments| => PartOf(env, segments[k]))
  }

  /** The value with each placeholder replaced and each escape undone. */
  ghost function Expected(env: Env, v: Value): Meaning
    requires Lexical(env)
    decreases v
  {
    match v
    case Null => Nothing
    case Scalar(n) => MNumber(n)
    case Str(s) =>
      var segments := Segments(env, s);
      if Placeholders(segments) == [] then TextMeaning(Unescape(s))
      else if segments == [Placeholder(s)] then PlaceholderMeaning(env, s)
      else MString(PartsOf(env, segments))
    case List(items) => MList(seq(|items|, k requires 0 <= k < |items| => Expected(env, items[k])))
    case Object(entries) => MObject(seq(|entries|, k requires 0 <= k < |entries| => (entries[k].0, Expected(env, entries[k].1))))
  }

  predicate Resolves(env: Env, text: string) {
    PlaceholderMeaning(env, text) != Nothing
  }

  /** No null anywhere inside, and every placeholder resolved. */
  ghost predicate Clean(env: Env, v: Value)
    requires Lexical(env)
    decreases v
  {
    match v
    case Null => false
    case Scalar(_) => true
    case Str(s) => forall k :: 0 <= k < |Segments(env, s)| && Segments(env, s)[k].Placeholder? ==> Resolves(env, Segments(env, s)[k].text)
    case List(items) => forall k :: 0 <= k < |items| ==> Clean(env, items[k])
    case Object(entries) => forall k :: 0 <= k < |entries| ==> Clean(env, entries[k].1)
  }

  // ---------------------------------------------------------------- one step of the evaluator at a time

  lemma Drop(t: Token, ts: seq<Token>)
    ensures ([t] + ts)[0] == t && ([t] + ts)[1..] == ts
  {
  }

  lemma EvalAtom(t: Token, rest: seq<Token>)
    ensures t.Number? ==> Eval([t] + rest) == Done(MNumber(t.n), rest)
    ensures t.Traversal? ==> Eval([t] + rest) == Done(Ref(t.path), rest)
  {
    Drop(t, rest);
    hide EvalTemplate, EvalItems, EvalEntries;
  }

  lemma EvalQuote(ts: seq<Token>, parts: seq<Part>, rest: seq<Token>)
    requires EvalTemplate(ts) == Done(parts, rest)
    ensures Eval([OQuote] + ts) == Done(MString(parts), rest)
  {
    hide EvalTemplate, EvalItems, EvalEntries;
    Drop(OQuote, ts);
  }

  lemma EvalBracket(ts: seq<Token>, items: seq<Meaning>, rest: seq<Token>)
    requires EvalItems(ts) == Done(items, rest)
    ensures Eval([OBrack] + ts) == Done(MList(items), rest)
  {
    hide EvalTemplate, EvalItems, EvalEntries;
    Drop(OBrack, ts);
  }

  lemma EvalBrace(ts: seq<Token>, entries: seq<(string, Meaning)>, rest: seq<Token>)
    requires EvalEntries(ts) == Done(entries, rest)
    ensures Eval([OBrace] + ts) == Done(MObject(entries), rest)
  {
    hide EvalTemplate, EvalItems, EvalEntries;
    Drop(OBrace, ts);
  }

  lemma TemplateEnd(rest: seq<Token>)
    ensures EvalTemplate([CQuote] + rest) == Done([], rest)
  {
    hide Eval;
    Drop(CQuote, rest);
  }

  lemma TemplateLit(text: string, ts: seq<Token>, parts: seq<Part>, rest: seq<Token>)
    requires EvalTemplate(ts) == Done(parts, rest)
    ensures EvalTemplate([Lit(text)] + ts) == Done([PText(text)] + parts, rest)
  {
    hide Eval;
    Drop(Lit(text), ts);
    assert EvalTemplate(([Lit(text)] + ts)[1..]) == EvalTemplate(ts);
  }

  lemma TemplateHole(ts: seq<Token>, m: Meaning, more: seq<Token>, parts: seq<Part>, rest: seq<Token>)
    requires Eval(ts) == Done(m, [InterpEnd] + more) && EvalTemplate(more) == Done(parts, rest)
    ensures EvalTemplate([InterpBegin] + ts) == Done([Hole(m)] + parts, rest)
  {
    hide Eval;
    Drop(InterpBegin, ts);
    Drop(InterpEnd, more);
    var all := [InterpBegin] + ts;
    assert Eval(all[1..]) == Done(m, [InterpEnd] + more);
    assert EvalTemplate(([InterpEnd] + more)[1..]) == Done(parts, rest);
  }

  lemma ItemsSkip(ts: seq<Token>)
    ensures EvalItems([Newline] + ts) == EvalItems(ts)
  {
    hide Eval, Close;
    Drop(Newline, ts);
  }

  lemma ItemsEnd(rest: seq<Token>)
    ensures EvalItems([CBrack] + rest) == Done([], rest)
  {
    hide Eval, Close;
    Drop(CBrack, rest);
  }

  lemma StartsExpression(ts: seq<Token>)
    requires Eval(ts).Done?
    ensures ts != [] && ts[0] != Newline && ts[0] != CBrack && ts[0] != CBrace
  {
    hide EvalTemplate, EvalItems, EvalEntries;
  }

  lemma ItemsMore(ts: seq<Token>, m: Meaning, more: seq<Token>, items: seq<Meaning>, rest: seq<Token>)
    requires Eval(ts) == Done(m, [Comma] + more) && EvalItems(more) == Done(items, rest)
    ensures EvalItems(ts) == Done([m] + items, rest)
  {
    StartsExpression(ts);
    hide Eval, Close;
    Drop(Comma, more);
    assert EvalItems(([Comma] + more)[1..]) == Done(items, rest);
  }

  lemma Closes(rest: seq<Token>)
    ensures Close([CBrack] + rest) == Done(true, rest) && Close([Newline] + ([CBrack] + rest)) == Done(true, rest)
  {
    Drop(CBrack, rest);
    Drop(Newline, [CBrack] + rest);
  }

  lemma ItemsLast(ts: seq<Token>, m: Meaning, rest: seq<Token>)
    requires Eval(ts) == Done(m, [CBrack] + rest) || Eval(ts) == Done(m, [Newline] + ([CBrack] + rest))
    ensures EvalItems(ts) == Done([m], rest)
  {
    StartsExpression(ts);
    Closes(rest);
    hide Eval, Close;
  }

  lemma EntriesSkip(ts: seq<Token>)
    ensures EvalEntries([Newline] + ts) == EvalEntries(ts)
  {
    hide Eval, EvalKey;
    Drop(Newline, ts);
  }

  lemma EntriesEnd(rest: seq<Token>)
    ensures EvalEntries([CBrace] + rest) == Done([], rest)
  {
    hide Eval, EvalKey;
    Drop(CBrace, rest);
  }

  lemma EntriesMore(ts: seq<Token>, key: string, value: seq<Token>, m: Meaning, more: seq<Token>, entries: seq<(string, Meaning)>, rest: seq<Token>)
    requires ts != [] && ts[0] != Newline && ts[0] != CBrace && EvalKey(ts) == Done(key, [Equal] + value)
    requires Eval(value) == Done(m, [Newline] + more) && EvalEntries(more) == Done(entries, rest)
    ensures EvalEntries(ts) == Done([(key, m)] + entries, rest)
  {
    hide Eval, EvalKey;
    Drop(Equal, value);
    Drop(Newline, more);
    assert Eval(([Equal] + value)[1..]) == Done(m, [Newline] + more);
    assert EvalEntries(([Newline] + more)[1..]) == Done(entries, rest);
  }

  // ---------------------------------------------------------------- the tokens mean the value

  lemma EvalQuoted(s: string, rest: seq<Token>)
    ensures Eval(Quoted(s) + rest) == Done(TextMeaning(s), rest)
  {
    hide Eval, EvalTemplate;
    TemplateEnd(rest);
    if s == [] {
      EvalQuote([CQuote] + rest, [], rest);
      assert Quoted(s) + rest == [OQuote] + ([CQuote] + rest);
    } else {
      TemplateLit(s, [CQuote] + rest, [], rest);
      assert [PText(s)] + [] == [PText(s)];
      EvalQuote([Lit(s)] + ([CQuote] + rest), [PText(s)], rest);
      assert Quoted(s) + rest == [OQuote] + ([Lit(s)] + ([CQuote] + rest));
    }
  }

  lemma {:induction false} EvalTuple(paths: seq<seq<string>>, rest: seq<Token>)
    ensures EvalItems(TupleTokens(paths) + [CBrack] + rest) == Done(RefsOf(paths), rest)
    decreases |paths|
  {
    hide Eval, EvalItems;
    var ts := TupleTokens(paths) + [CBrack] + rest;
    if paths == [] {
      ItemsEnd(rest);
      assert ts == [CBrack] + rest;
    } else {
      var head := Traversal(paths[0]);
      EvalTuple(paths[1..], rest);
      var more := TupleTokens(paths[1..]) + [CBrack] + rest;
      assert RefsOf(paths) == [Ref(paths[0])] + RefsOf(paths[1..]);
      if |paths| > 1 {
        EvalAtom(head, [Comma] + more);
        assert ts == [head] + ([Comma] + more);
        ItemsMore(ts, Ref(paths[0]), more, RefsOf(paths[1..]), rest);
      } else {
        EvalAtom(head, [CBrack] + rest);
        assert ts == [head] + ([CBrack] + rest);
        ItemsLast(ts, Ref(paths[0]), rest);
        assert RefsOf(paths) == [Ref(paths[0])];
      }
    }
  }

  lemma EvalPlaceholder(env: Env, text: string, rest: seq<Token>)
    requires PlaceholderTokens(env, text).Ok? && Resolves(env, text)
    ensures Eval(PlaceholderTokens(env, text).value + rest) == Done(PlaceholderMeaning(env, text), rest)
  {
    hide Eval, EvalItems;
    match env.subs[text]
    case Selector(paths) =>
      EvalTuple(paths, rest);
      EvalBracket(TupleTokens(paths) + [CBrack] + rest, RefsOf(paths), rest);
      assert PlaceholderTokens(env, text).value + rest == [OBrack] + (TupleTokens(paths) + [CBrack] + rest);
    case Context(Some(value)) => EvalQuoted(value, rest);
    case Resource(Some(path)) => EvalAtom(Traversal(path), rest);
    case Var(key) => EvalAtom(Traversal(["var", key]), rest);
  }

  predicate AllResolve(env: Env, segments: seq<Segment>) {
    forall k :: 0 <= k < |segments| && segments[k].Placeholder? ==> Resolves(env, segments[k].text)
  }

  lemma {:induction false} EvalSegments(env: Env, segments: seq<Segment>, rest: seq<Token>)
    requires TemplateTokens(env, segments).Ok? && AllResolve(env, segments)
    ensures EvalTemplate(TemplateTokens(env, segments).value + [CQuote] + rest) == Done(PartsOf(env, segments), rest)
    decreases |segments|
  {
    hide Eval, EvalTemplate, Unescape, PlaceholderTokens, PlaceholderMeaning;
    var ts := TemplateTokens(env, segments).value + [CQuote] + rest;
    if segments == [] {
      TemplateEnd(rest);
      assert ts == [CQuote] + rest;
    } else {
      var more, parts := TemplateTokens(env, segments[1..]).value + [CQuote] + rest, PartsOf(env, segments[1..]);
      assert forall k :: 0 <= k < |segments[1..]| ==> segments[1..][k] == segments[k + 1];
      EvalSegments(env, segments[1..], rest);
      assert PartsOf(env, segments) == [PartOf(env, segments[0])] + parts;
      match segments[0]
      case Literal(text) =>
        TemplateLit(Unescape(text), more, parts, rest);
        assert ts == [Lit(Unescape(text))] + more;
      case Placeholder(text) =>
        var inner := PlaceholderTokens(env, text).value;
        EvalPlaceholder(env, text, [InterpEnd] + more);
        TemplateHole(inner + ([InterpEnd] + more), PlaceholderMeaning(env, text), more, parts, rest);
        assert ts == [InterpBegin] + (inner + ([InterpEnd] + more));
    }
  }

  lemma EvalString(env: Env, s: string, rest: seq<Token>)
    requires Lexical(env) && StringTokens(env, s).Ok? && AllResolve(env, Segments(env, s))
    ensures Eval(StringTokens(env, s).value + rest) == Done(Expected(env, Str(s)), rest)
  {
    hide Eval, EvalTemplate, Segments, Unescape, PlaceholderTokens, PlaceholderMeaning, TemplateTokens, Lexical;
    var segments := Segments(env, s);
    if Placeholders(segments) == [] {
      EvalQuoted(Unescape(s), rest);
    } else if segments == [Placeholder(s)] {
      assert segments[0] == Placeholder(s) && Resolves(env, s);
      EvalPlaceholder(env, s, rest);
    } else {
      EvalSegments(env, segments, rest);
      var inner := TemplateTokens(env, segments).value + [CQuote] + rest;
      EvalQuote(inner, PartsOf(env, segments), rest);
      assert StringTokens(env, s).value + rest == [OQuote] + inner;
    }
  }

  lemma {:induction false} EvalConverted(env: Env, v: Value, rest: seq<Token>)
    requires Lexical(env) && Convert(env, v).Ok? && Clean(env, v)
    ensures Eval(Convert(env, v).value + rest) == Done(Expected(env, v), rest)
    decreases v, 0
  {
    hide Eval, EvalItems, EvalEntries, Lexical, StringTokens, Segments, ConvertItems, ConvertEntries, PlaceholderMeaning;
    match v
    case Scalar(n) => EvalAtom(Number(n), rest);
    case Str(s) => EvalString(env, s, rest);
    case List(items) =>
      EvalConvertedItems(env, items, rest);
      var inner := ConvertItems(env, items).value + [CBrack] + rest;
      ItemsSkip(inner);
      EvalBracket([Newline] + inner, ExpectedItems(env, items), rest);
      assert Convert(env, v).value + rest == [OBrack] + ([Newline] + inner);
    case Object(entries) =>
      EvalConvertedEntries(env, entries, rest);
      var inner := ConvertEntries(env, entries).value + [CBrace] + rest;
      EntriesSkip(inner);
      EvalBrace([Newline] + inner, ExpectedEntries(env, entries), rest);
      assert Convert(env, v).value + rest == [OBrace] + ([Newline] + inner);
  }

  ghost function ExpectedItems(env: Env, items: seq<Value>): seq<Meaning>
    requires Lexical(env)
  {
    seq(|items|, k requires 0 <= k < |items| => Expected(env, items[k]))
  }

  ghost function ExpectedEntries(env: Env, entries: seq<(string, Value)>): seq<(string, Meaning)>
    requires Lexical(env)
  {
    seq(|entries|, k requires 0 <= k < |entries| => (entries[k].0, Expected(env, entries[k].1)))
  }

  lemma {:induction false} EvalConvertedItems(env: Env, items: seq<Value>, rest: seq<Token>)
    requires Lexical(env) && ConvertItems(env, items).Ok? && forall k :: 0 <= k < |items| ==> Clean(env, items[k])
    ensures EvalItems(ConvertItems(env, items).value + [CBrack] + rest) == Done(ExpectedItems(env, items), rest)
    decreases items
  {
    hide Eval, EvalItems, Lexical, Convert, Expected, Clean;
    var ts := ConvertItems(env, items).value + [CBrack] + rest;
    if items == [] {
      ItemsEnd(rest);
      assert ts == [CBrack] + rest;
    } else {
      var first, m := Convert(env, items[0]).value, Expected(env, items[0]);
      var more := ConvertItems(env, items[1..]).value + [CBrack] + rest;
      EvalConvertedItems(env, items[1..], rest);
      assert ExpectedItems(env, items) == [m] + ExpectedItems(env, items[1..]);
      if |items| > 1 {
        ItemsSkip(more);
        EvalConverted(env, items[0], [Comma] + ([Newline] + more));
        assert ts == first + ([Comma] + ([Newline] + more));
        ItemsMore(ts, m, [Newline] + more, ExpectedItems(env, items[1..]), rest);
      } else {
        EvalConverted(env, items[0], [Newline] + ([CBrack] + rest));
        assert ts == first + ([Newline] + ([CBrack] + rest));
        ItemsLast(ts, m, rest);
        assert ExpectedItems(env, items) == [m];
      }
    }
  }

  lemma EvalKeyTokens(env: Env, key: string, rest: seq<Token>)
    ensures EvalKey(KeyTokens(env, key) + rest) == Done(key, rest)
    ensures (KeyTokens(env, key) + rest)[0] != Newline && (KeyTokens(env, key) + rest)[0] != CBrace
  {
    var ts := KeyTokens(env, key) + rest;
    if env.isIdentifier(key) { assert ts[1..] == rest; }
    else if key == [] { assert ts[2..] == rest; }
    else { assert ts[3..] == rest; }
  }

  lemma {:induction false} EvalConvertedEntries(env: Env, entries: seq<(string, Value)>, rest: seq<Token>)
    requires Lexical(env) && ConvertEntries(env, entries).Ok? && forall k :: 0 <= k < |entries| ==> Clean(env, entries[k].1)
    ensures EvalEntries(ConvertEntries(env, entries).value + [CBrace] + rest) == Done(ExpectedEntries(env, entries), rest)
    decreases entries
  {
    hide Eval, EvalEntries, EvalKey, KeyTokens, Lexical, ConvertEntry, Expected, Clean;
    var ts := ConvertEntries(env, entries).value + [CBrace] + rest;
    if entries == [] {
      EntriesEnd(rest);
      assert ts == [CBrace] + rest;
    } else {
      var key, first, m := entries[0].0, ConvertEntry(env, entries[0]).value, Expected(env, entries[0].1);
      var more := ConvertEntries(env, entries[1..]).value + [CBrace] + rest;
      EvalConvertedEntries(env, entries[1..], rest);
      assert ExpectedEntries(env, entries) == [(key, m)] + ExpectedEntries(env, entries[1..]);
      var value := first + ([Newline] + more);
      assert ts == KeyTokens(env, key) + ([Equal] + value);
      EvalKeyTokens(env, key, [Equal] + value);
      EvalConvertedEntry(env, entries[0], [Newline] + more);
      EntriesMore(ts, key, value, m, more, ExpectedEntries(env, entries[1..]), rest);
    }
  }

  lemma {:induction false} EvalConvertedEntry(env: Env, entry: (string, Value), rest: seq<Token>)
    requires Lexical(env) && ConvertEntry(env, entry).Ok? && Clean(env, entry.1)
    ensures Eval(ConvertEntry(env, entry).value + rest) == Done(Expected(env, entry.1), rest)
    decreases entry
  {
    EvalConverted(env, entry.1, rest);
  }

  // ---------------------------------------------------------------- and only then

  predicate Full(m: Meaning) {
    match m
    case Nothing => false
    case MString(parts) => forall k :: 0 <= k < |parts| ==> FullPart(parts[k])
    case MList(items) => forall k :: 0 <= k < |items| ==> Full(items[k])
    case MObject(entries) => forall k :: 0 <= k < |entries| ==> Full(entries[k].1)
    case _ => true
  }

  predicate FullPart(p: Part) {
    match p case PText(_) => true case Hole(m) => Full(m)
  }

  /** Evaluation never yields nothing, at any depth. */
  lemma {:induction false} EvalIsFull(ts: seq<Token>)
    ensures Eval(ts).Done? ==> Full(Eval(ts).value)
    decreases |ts|, 0
  {
    if ts != [] {
      match ts[0]
      case OQuote => TemplateIsFull(ts[1..]);
      case OBrack => ItemsAreFull(ts[1..]);
      case OBrace => EntriesAreFull(ts[1..]);
      case _ =>
    }
  }

  lemma {:induction false} TemplateIsFull(ts: seq<Token>)
    ensures EvalTemplate(ts).Done? ==> forall k :: 0 <= k < |EvalTemplate(ts).value| ==> FullPart(EvalTemplate(ts).value[k])
    decreases |ts|, 1
  {
    if ts != [] {
      match ts[0]
      case Lit(_) => TemplateIsFull(ts[1..]);
      case InterpBegin =>
        EvalIsFull(ts[1..]);
        var e := Eval(ts[1..]);
        if e.Done? && e.rest != [] { TemplateIsFull(e.rest[1..]); }
      case _ =>
    }
  }

  lemma {:induction false} ItemsAreFull(ts: seq<Token>)
    ensures EvalItems(ts).Done? ==> forall k :: 0 <= k < |EvalItems(ts).value| ==> Full(EvalItems(ts).value[k])
    decreases |ts|, 1
  {
    if ts != [] {
      if ts[0] == Newline { ItemsAreFull(ts[1..]); }
      else if ts[0] != CBrack {
        EvalIsFull(ts);
        var e := Eval(ts);
        if e.Done? && e.rest != [] && e.rest[0] == Comma { ItemsAreFull(e.rest[1..]); }
      }
    }
  }

  lemma {:induction false} EntriesAreFull(ts: seq<Token>)
    ensures EvalEntries(ts).Done? ==> forall k :: 0 <= k < |EvalEntries(ts).value| ==> Full(EvalEntries(ts).value[k].1)
    decreases |ts|, 1
  {
    if ts != [] {
      if ts[0] == Newline { EntriesAreFull(ts[1..]); }
      else if ts[0] != CBrace {
        var k := EvalKey(ts);
        if k.Done? && k.rest != [] {
          EvalIsFull(k.rest[1..]);
          var e := Eval(k.rest[1..]);
          if e.Done? && e.rest != [] { EntriesAreFull(e.rest[1..]); }
        }
      }
    }
  }

  lemma {:induction false} FullMeansClean(env: Env, v: Value)
    requires Lexical(env) && Full(Expected(env, v))
    ensures Clean(env, v)
    decreases v
  {
    match v
    case Str(s) =>
      var segments := Segments(env, s);
      hide Segments, Lexical;
      forall k | 0 <= k < |segments| && segments[k].Placeholder? ensures Resolves(env, segments[k].text) {
        PlaceholdersHave(segments, k);
        if segments == [Placeholder(s)] { assert segments[k] == Placeholder(s); }
        else { assert FullPart(PartsOf(env, segments)[k]); }
      }
    case List(items) =>
      hide Lexical;
      forall k | 0 <= k < |items| ensures Clean(env, items[k]) { assert Full(Expected(env, v).items[k]); FullMeansClean(env, items[k]); }
    case Object(entries) =>
      hide Lexical;
      forall k | 0 <= k < |entries| ensures Clean(env, entries[k].1) { assert Full(Expected(env, v).entries[k].1); FullMeansClean(env, entries[k].1); }
    case _ =>
  }

  lemma {:induction false} PlaceholdersHave(segments: seq<Segment>, k: nat)
    requires k < |segments| && segments[k].Placeholder?
    ensures Placeholders(segments) != []
    decreases k
  {
    if k > 0 { PlaceholdersHave(segments[1..], k - 1); }
  }

  /**
   Conversion preserves meaning: the tokens evaluate to the value with each placeholder replaced and each escape undone, whatever
   follows them, if and only if the value has no null inside and all its placeholders are resolved.
   */
  lemma ConversionPreservesMeaningIff(env: Env, v: Value, rest: seq<Token>)
    requires Lexical(env) && Convert(env, v).Ok?
    ensures Eval(Convert(env, v).value + rest) == Done(Expected(env, v), rest) <==> Clean(env, v)
  {
    hide Eval, Convert, Expected, Clean, Lexical, Full;
    if Clean(env, v) { EvalConverted(env, v, rest); }
    else if Eval(Convert(env, v).value + rest) == Done(Expected(env, v), rest) {
      EvalIsFull(Convert(env, v).value + rest);
      FullMeansClean(env, v);
    }
  }

  /** An unresolved placeholder is no error: it converts to no tokens at all. */
  lemma UnresolvedPlaceholderIsSilent(env: Env, s: string)
    requires Lexical(env) && Segments(env, s) == [Placeholder(s)] && s !in env.subs
    ensures Convert(env, Str(s)) == Ok([])
  {
    PlaceholdersHave(Segments(env, s), 0);
    hide Segments, Lexical;
  }

  /** A null inside a list vanishes: the list of one null evaluates to the empty list. */
  lemma NestedNullVanishes(env: Env, rest: seq<Token>)
    requires Lexical(env)
    ensures Convert(env, List([Null])).Ok? && Eval(Convert(env, List([Null])).value + rest) == Done(MList([]), rest)
  {
    hide Lexical;
    var items := [Null];
    assert items[1..] == [] && items[0] == Null;
    assert Convert(env, items[0]) == Ok([]) && ConvertItems(env, items[1..]) == Ok([]);
    assert ConvertItems(env, items).value == [Newline];
    var ts := Convert(env, List([Null])).value + rest;
    assert ts == [OBrack] + ([Newline] + ([Newline] + ([CBrack] + rest)));
    hide Eval, EvalItems;
    ItemsEnd(rest);
    ItemsSkip([CBrack] + rest);
    ItemsSkip([Newline] + ([CBrack] + rest));
    EvalBracket([Newline] + ([Newline] + ([CBrack] + rest)), [], rest);
  }

  // ---------------------------------------------------------------- the code's loops

  predicate Occurs(s: string, sub: string, p: nat) {
    p + |sub| <= |s| && s[p..p + |sub|] == sub
  }

  /** strings.Index */
  function Index(s: string, sub: string): (p: int)
    ensures p >= 0 ==> Occurs(s, sub, p) && forall q: nat :: q < p ==> !Occurs(s, sub, q)
    ensures p < 0 ==> forall q: nat :: !Occurs(s, sub, q)
  {
    IndexFrom(s, sub, 0)
  }

  function IndexFrom(s: string, sub: string, from: nat): (p: int)
    requires forall q: nat :: q < from ==> !Occurs(s, sub, q)
    ensures p >= 0 ==> Occurs(s, sub, p) && forall q: nat :: q < p ==> !Occurs(s, sub, q)
    ensures p < 0 ==> forall q: nat :: !Occurs(s, sub, q)
    decreases if from <= |s| then |s| - from + 1 else 0
  {
    if from > |s| then -1
    else if Occurs(s, sub, from) then from
    else IndexFrom(s, sub, from + 1)
  }

  /** The code looks for the matched text again with strings.Index; since the match is leftmost, it finds the match itself. */
  lemma IndexIsMatch(env: Env, s: string)
    requires FindsLeftmost(env, s) && env.find(s).Some?
    ensures var m := env.find(s).value; m.0 < m.1 <= |s| && Index(s, s[m.0..m.1]) == m.0
  {
    var i, j := env.find(s).value.0, env.find(s).value.1;
    var sub := s[i..j];
    assert Occurs(s, sub, i);
  }

  /** FindAllStringSubmatch: the matched texts from left to right. */
  method FindAll(env: Env, s: string) returns (texts: seq<string>)
    requires Lexical(env)
    ensures texts == Placeholders(Segments(env, s))
  {
    texts := [];
    var pos := 0;
    assert s[0..] == s;
    while true
      invariant 0 <= pos <= |s|
      invariant Placeholders(Segments(env, s)) == texts + Placeholders(Segments(env, s[pos..]))
      decreases |s| - pos
    {
      assert FindsLeftmost(env, s[pos..]);
      var found := env.find(s[pos..]);
      SegmentsStep(env, s[pos..]);
      hide Lexical, Segments, FindsLeftmost;
      if found.None? { return; }
      var i, j := found.value.0, found.value.1;
      texts := texts + [s[pos..][i..j]];
      assert s[pos..][j..] == s[pos + j..];
      pos := pos + j;
    }
  }

  lemma SegmentsAre(env: Env, s: string)
    requires Lexical(env)
    ensures env.find(s).None? ==> Segments(env, s) == if s == [] then [] else [Literal(s)]
    ensures env.find(s).Some? ==>
              var m := env.find(s).value;
              m.0 < m.1 <= |s| && Segments(env, s) == (if m.0 > 0 then [Literal(s[..m.0])] else []) + [Placeholder(s[m.0..m.1])] + Segments(env, s[m.1..])
  {
    assert FindsLeftmost(env, s);
    hide Lexical;
  }

  lemma SegmentsStep(env: Env, s: string)
    requires Lexical(env)
    ensures env.find(s).None? ==> Placeholders(Segments(env, s)) == []
    ensures env.find(s).Some? ==>
              var m := env.find(s).value; m.0 < m.1 <= |s| && Placeholders(Segments(env, s)) == [s[m.0..m.1]] + Placeholders(Segments(env, s[m.1..]))
  {
    hide Lexical, Segments, Placeholders;
    SegmentsAre(env, s);
    NoPlaceholders();
    if env.find(s).None? {
      OnlyLiteral(s);
    } else {
      var i, j := env.find(s).value.0, env.find(s).value.1;
      var head, rest := if i > 0 then [Literal(s[..i])] else [], Segments(env, s[j..]);
      PlaceholdersConcat(head + [Placeholder(s[i..j])], rest);
      PlaceholdersConcat(head, [Placeholder(s[i..j])]);
      OnlyLiteral(s[..i]);
      OnlyPlaceholder(s[i..j]);
    }
  }

  lemma NoPlaceholders()
    ensures Placeholders([]) == []
  {
  }

  lemma OnlyPlaceholder(s: string)
    ensures Placeholders([Placeholder(s)]) == [s]
  {
    assert [Placeholder(s)][1..] == [];
  }

  lemma OnlyLiteral(s: string)
    ensures Placeholders([Literal(s)]) == []
  {
    assert [Literal(s)][1..] == [];
  }

  lemma {:induction false} PlaceholdersConcat(a: seq<Segment>, b: seq<Segment>)
    ensures Placeholders(a + b) == Placeholders(a) + Placeholders(b)
    decreases |a|
  {
    if a == [] { assert a + b == b; }
    else {
      assert (a + b)[1..] == a[1..] + b;
      PlaceholdersConcat(a[1..], b);
    }
  }

  /** The string case of convertToTokens. */
  method ConvertString(env: Env, v: string) returns (r: Result<seq<Token>>)
    requires Lexical(env)
    ensures r == StringTokens(env, v)
  {
    var matches := FindAll(env, v);
    if |matches| == 0 { return Ok(Quoted(Unescape(v))); }
    WholeMatch(env, v);
    hide Lexical, Segments, PlaceholderTokens, Placeholders;
    if |matches| == 1 && matches[0] == v { return PlaceholderTokens(env, v); }
    r := Interpolate(env, v, matches);
  }

  /** The loop as written: find each match again, emit the literal before it, then the interpolation. */
  method Interpolate(env: Env, v: string, matches: seq<string>) returns (r: Result<seq<Token>>)
    requires Lexical(env) && matches == Placeholders(Segments(env, v))
    ensures r == Enclose(TemplateTokens(env, Segments(env, v)))
  {
    hide Lexical, Segments, TemplateTokens, Index, PlaceholderTokens, Unescape, Placeholders, Prepend;
    var tokens := [OQuote];
    ghost var body: seq<Token> := [];
    var lastPos, k := 0, 0;
    assert v[0..] == v && matches[0..] == matches;
    PrependTwice([], [], TemplateTokens(env, Segments(env, v)));
    while k < |matches|
      invariant 0 <= k <= |matches| && 0 <= lastPos <= |v| && tokens == [OQuote] + body
      invariant matches[k..] == Placeholders(Segments(env, v[lastPos..]))
      invariant TemplateTokens(env, Segments(env, v)) == Prepend(body, TemplateTokens(env, Segments(env, v[lastPos..])))
    {
      var rest := v[lastPos..];
      var placeholder := matches[k];
      assert matches[k..][0] == placeholder && matches[k..][1..] == matches[k + 1..];
      ghost var m := TemplateStep(env, rest, matches[k..]);
      var start := Index(rest, placeholder) + lastPos;
      assert v[lastPos..start] == rest[..m.0] && rest[m.1..] == v[lastPos + m.1..];
      ghost var before := tokens;
      if start > lastPos { tokens := tokens + [Lit(Unescape(v[lastPos..start]))]; }
      var inner := PlaceholderTokens(env, placeholder);
      if inner.Err? {
        PrependErr(body, inner);
        return inner;
      }
      tokens := tokens + [InterpBegin] + inner.value + [InterpEnd];
      ghost var more := (if m.0 > 0 then [Lit(Unescape(rest[..m.0]))] else []) + ([InterpBegin] + inner.value + [InterpEnd]);
      assert tokens == before + more;
      PrependTwice(body, more, TemplateTokens(env, Segments(env, rest[m.1..])));
      body := body + more;
      lastPos := start + |placeholder|;
      k := k + 1;
    }
    assert matches[k..] == [];
    LastSegment(env, v[lastPos..]);
    ghost var tail := if lastPos < |v| then [Lit(Unescape(v[lastPos..]))] else [];
    PrependOk(body, tail);
    if lastPos < |v| { tokens := tokens + [Lit(Unescape(v[lastPos..]))]; }
    assert tokens == [OQuote] + (body + tail);
    r := Ok(tokens + [CQuote]);
  }

  function Enclose(r: Result<seq<Token>>): Result<seq<Token>> {
    if r.Err? then r else Ok([OQuote] + r.value + [CQuote])
  }

  lemma PrependOk(a: seq<Token>, b: seq<Token>)
    ensures Prepend(a, Ok(b)) == Ok(a + b)
  {
  }

  lemma PrependTwice(a: seq<Token>, b: seq<Token>, r: Result<seq<Token>>)
    ensures Prepend(a, Prepend(b, r)) == Prepend(a + b, r) && Prepend([], r) == r
  {
    if r.Ok? { assert a + (b + r.value) == a + b + r.value && [] + r.value == r.value; }
  }

  lemma PrependErr(a: seq<Token>, r: Result<seq<Token>>)
    requires r.Err?
    ensures Prepend(a, r) == r
  {
  }

  function Prepend(ts: seq<Token>, r: Result<seq<Token>>): Result<seq<Token>> {
    if r.Err? then r else Ok(ts + r.value)
  }

  /** One match is the whole string exactly if the code's test says so. */
  lemma WholeMatch(env: Env, v: string)
    requires Lexical(env)
    ensures Placeholders(Segments(env, v)) == [v] <==> Segments(env, v) == [Placeholder(v)]
  {
    assert FindsLeftmost(env, v);
    SegmentsStep(env, v);
    if Placeholders(Segments(env, v)) == [v] {
      var i, j := env.find(v).value.0, env.find(v).value.1;
      assert ([v[i..j]] + Placeholders(Segments(env, v[j..])))[0] == v[i..j];
      assert v == v[i..j] && i == 0 && j == |v|;
      assert v[j..] == [] && FindsLeftmost(env, []);
      assert Segments(env, []) == [];
    }
    assert [Placeholder(v)][1..] == [];
  }

  /** The next match in the rest of the string, and the tokens for it. */
  lemma TemplateStep(env: Env, s: string, matches: seq<string>) returns (m: (nat, nat))
    requires Lexical(env) && matches == Placeholders(Segments(env, s)) && matches != []
    ensures env.find(s) == Some(m) && m.0 < m.1 <= |s| && matches[0] == s[m.0..m.1] && Index(s, matches[0]) == m.0
    ensures matches[1..] == Placeholders(Segments(env, s[m.1..]))
    ensures var inner := PlaceholderTokens(env, matches[0]);
            TemplateTokens(env, Segments(env, s)) ==
              if inner.Err? then inner
              else Prepend((if m.0 > 0 then [Lit(Unescape(s[..m.0]))] else []) + ([InterpBegin] + inner.value + [InterpEnd]),
                           TemplateTokens(env, Segments(env, s[m.1..])))
  {
    assert FindsLeftmost(env, s);
    SegmentsStep(env, s);
    m := env.find(s).value;
    IndexIsMatch(env, s);
    var i, j := m.0, m.1;
    var rest := Segments(env, s[j..]);
    assert Segments(env, s) == (if i > 0 then [Literal(s[..i])] else []) + ([Placeholder(s[i..j])] + rest);
    hide Lexical, Segments, FindsLeftmost, Index, Unescape, PlaceholderTokens;
    TemplateFirst(env, Placeholder(s[i..j]), rest);
    var inner := PlaceholderTokens(env, s[i..j]);
    assert matches[0] == s[i..j];
    assert inner.Ok? ==> [] + ([InterpBegin] + inner.value + [InterpEnd]) == [InterpBegin] + inner.value + [InterpEnd];
    if i > 0 {
      TemplateFirst(env, Literal(s[..i]), [Placeholder(s[i..j])] + rest);
      if inner.Ok? { PrependTwice([Lit(Unescape(s[..i]))], [InterpBegin] + inner.value + [InterpEnd], TemplateTokens(env, rest)); }
    }
    else { assert [] + ([Placeholder(s[i..j])] + rest) == [Placeholder(s[i..j])] + rest; }
  }

  lemma TemplateFirst(env: Env, first: Segment, rest: seq<Segment>)
    ensures var inner := PlaceholderTokens(env, first.text);
            TemplateTokens(env, [first] + rest) ==
              if first.Literal? then Prepend([Lit(Unescape(first.text))], TemplateTokens(env, rest))
              else if inner.Err? then inner
              else Prepend([InterpBegin] + inner.value + [InterpEnd], TemplateTokens(env, rest))
  {
    assert ([first] + rest)[0] == first && ([first] + rest)[1..] == rest;
    hide PlaceholderTokens, Unescape;
  }

  lemma LastSegment(env: Env, s: string)
    requires Lexical(env)
    ensures Placeholders(Segments(env, s)) == [] ==> TemplateTokens(env, Segments(env, s)) == Ok(if s == [] then [] else [Lit(Unescape(s))])
  {
    assert FindsLeftmost(env, s);
    SegmentsStep(env, s);
    if env.find(s).None? && s != [] {
      assert [Literal(s)][1..] == [];
      assert [Literal(s)] + [] == [Literal(s)];
      TemplateFirst(env, Literal(s), []);
      assert [Lit(Unescape(s))] + [] == [Lit(Unescape(s))];
    }
  }

  /** convertToTokens: recursion on the value, with a loop over list elements and one over sorted object keys. */
  method ConvertToTokens(env: Env, v: Value) returns (r: Result<seq<Token>>)
    requires Lexical(env)
    ensures r == Convert(env, v)
    decreases v, 0
  {
    hide Lexical, StringTokens, ConvertItems, ConvertEntries;
    match v {
      case Null => r := Ok([]);
      case Scalar(n) => r := Ok([Number(n)]);
      case Str(s) => r := ConvertString(env, s);
      case List(items) =>
        r := ListTokens(env, items);
        if r.Ok? { r := Ok([OBrack, Newline] + r.value + [CBrack]); }
      case Object(entries) =>
        r := ObjectTokens(env, entries);
        if r.Ok? { r := Ok([OBrace, Newline] + r.value + [CBrace]); }
    }
  }

  method ListTokens(env: Env, items: seq<Value>) returns (r: Result<seq<Token>>)
    requires Lexical(env)
    ensures r == ConvertItems(env, items)
    decreases items
  {
    hide Lexical, Convert, Prepend;
    var tokens: seq<Token> := [];
    var k := 0;
    assert items[0..] == items;
    PrependTwice([], [], ConvertItems(env, items));
    while k < |items|
      invariant 0 <= k <= |items| && ConvertItems(env, items) == Prepend(tokens, ConvertItems(env, items[k..]))
    {
      assert items[k..][0] == items[k] && items[k..][1..] == items[k + 1..];
      ItemStep(env, items[k..]);
      var value := ConvertToTokens(env, items[k]);
      if value.Err? {
        PrependErr(tokens, value);
        return value;
      }
      ghost var before := tokens;
      tokens := tokens + value.value;
      if k + 1 < |items| { tokens := tokens + [Comma]; }
      tokens := tokens + [Newline];
      ghost var more := value.value + (if |items[k..]| > 1 then [Comma] else []) + [Newline];
      assert tokens == before + more;
      PrependTwice(before, more, ConvertItems(env, items[k + 1..]));
      k := k + 1;
    }
    assert items[k..] == [];
    PrependOk(tokens, []);
    assert tokens + [] == tokens;
    r := Ok(tokens);
  }

  lemma ItemStep(env: Env, items: seq<Value>)
    requires Lexical(env) && items != []
    ensures var first := Convert(env, items[0]);
            ConvertItems(env, items) ==
              if first.Err? then first
              else Prepend(first.value + (if |items| > 1 then [Comma] else []) + [Newline], ConvertItems(env, items[1..]))
  {
    hide Lexical, Convert;
  }

  method ObjectTokens(env: Env, entries: seq<(string, Value)>) returns (r: Result<seq<Token>>)
    requires Lexical(env)
    ensures r == ConvertEntries(env, entries)
    decreases entries
  {
    hide Lexical, ConvertEntry, Prepend, KeyTokens;
    var tokens: seq<Token> := [];
    var k := 0;
    assert entries[0..] == entries;
    PrependTwice([], [], ConvertEntries(env, entries));
    while k < |entries|
      invariant 0 <= k <= |entries| && ConvertEntries(env, entries) == Prepend(tokens, ConvertEntries(env, entries[k..]))
    {
      assert entries[k..][0] == entries[k] && entries[k..][1..] == entries[k + 1..];
      EntryStep(env, entries[k..]);
      var value := EntryTokens(env, entries[k]);
      if value.Err? {
        PrependErr(tokens, value);
        return value;
      }
      ghost var before := tokens;
      tokens := tokens + KeyTokens(env, entries[k].0) + [Equal] + value.value + [Newline];
      ghost var more := KeyTokens(env, entries[k].0) + [Equal] + value.value + [Newline];
      assert tokens == before + more;
      PrependTwice(before, more, ConvertEntries(env, entries[k + 1..]));
      k := k + 1;
    }
    assert entries[k..] == [];
    PrependOk(tokens, []);
    assert tokens + [] == tokens;
    r := Ok(tokens);
  }

  method EntryTokens(env: Env, entry: (string, Value)) returns (r: Result<seq<Token>>)
    requires Lexical(env)
    ensures r == ConvertEntry(env, entry)
    decreases entry
  {
    r := ConvertToTokens(env, entry.1);
  }

  lemma EntryStep(env: Env, entries: seq<(string, Value)>)
    requires Lexical(env) && entries != []
    ensures var first := ConvertEntry(env, entries[0]);
            ConvertEntries(env, entries) ==
              if first.Err? then first
              else Prepend(KeyTokens(env, entries[0].0) + [Equal] + first.value + [Newline], ConvertEntries(env, entries[1..]))
  {
    hide Lexical, ConvertEntry, KeyTokens;
  }
}
