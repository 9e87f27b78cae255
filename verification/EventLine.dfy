/** The line protocol between a worker and the supervisor. */
module EventLine {
  import opened Options
  import opened Sets
  import opened Text

  datatype Event = Event(kind: string, time: int, id: string, duration: int)

  // ------------------------------------------------------------------ fields

  /** A value is printable and holds neither spaces nor an equals sign. */
  predicate ValidValue(value: string) {
    value != "" && forall i | 0 <= i < |value| :: ' ' < value[i] <= '~' && value[i] != '='
  }

  /** A token that parseFields accepts on its own. */
  predicate Field(token: string) {
    var (key, value) := Cut(token, '=');
    value.Some? && key != "" && ValidValue(value.value)
  }

  function Key(token: string): string {
    Cut(token, '=').0
  }

  function Value(token: string): string
    requires Field(token)
  {
    Cut(token, '=').1.value
  }

  /** What a list of tokens says when each is a field and none repeats a key. */
  predicate Fields(tokens: seq<string>) {
    && (forall i | 0 <= i < |tokens| :: Field(tokens[i]))
    && (forall i, j | 0 <= i < j < |tokens| :: Key(tokens[i]) != Key(tokens[j]))
  }

  predicate Named(tokens: seq<string>, key: string) {
    exists i | 0 <= i < |tokens| :: Key(tokens[i]) == key
  }

  ghost predicate Holds(fields: map<string, string>, tokens: seq<string>)
    requires Fields(tokens)
  {
    && (forall i | 0 <= i < |tokens| :: Key(tokens[i]) in fields && fields[Key(tokens[i])] == Value(tokens[i]))
    && (forall k :: k in fields <==> Named(tokens, k))
  }

  /** The map that parseFields builds, or None for an invalid or duplicate field. */
  function Collect(tokens: seq<string>): (r: Option<map<string, string>>)
  {
    if tokens == [] then Some(map[])
    else
      var rest, token := Collect(tokens[..|tokens| - 1]), tokens[|tokens| - 1];
      if rest.None? || !Field(token) || Key(token) in rest.value then None
      else Some(rest.value[Key(token) := Value(token)])
  }

  /** parseFields rejects exactly the lines with a malformed or repeated field. */
  lemma {:induction false} CollectMeans(tokens: seq<string>)
    ensures Collect(tokens).Some? <==> Fields(tokens)
    ensures Collect(tokens).Some? ==> Holds(Collect(tokens).value, tokens) && |Collect(tokens).value| == |tokens|
    ensures Collect(tokens).Some? ==> forall k <- Collect(tokens).value :: ValidValue(Collect(tokens).value[k])
    decreases |tokens|
  {
    if tokens == [] {
    } else {
      var rest, token := tokens[..|tokens| - 1], tokens[|tokens| - 1];
      CollectMeans(rest);
      hide Field, Key, Value, Named;
      FieldsMore(rest, token);
      if Fields(rest) && Field(token) && !Named(rest, Key(token)) { HoldsMore(Collect(rest).value, rest, token); }
      assert rest + [token] == tokens;
    }
  }

  lemma FieldsMore(rest: seq<string>, token: string)
    ensures Fields(rest + [token]) <==> Fields(rest) && Field(token) && !Named(rest, Key(token))
  {
    hide Field, Key, Value;
    var all := rest + [token];
    assert all[|rest|] == token && forall i | 0 <= i < |rest| :: all[i] == rest[i];
    if Fields(all) {
      assert forall i | 0 <= i < |rest| :: Field(all[i]) && Key(all[i]) != Key(all[|rest|]);
      assert forall i, j | 0 <= i < j < |rest| :: Key(all[i]) != Key(all[j]);
    }
  }

  lemma HoldsMore(fields: map<string, string>, rest: seq<string>, token: string)
    requires Fields(rest) && Field(token) && Holds(fields, rest) && !Named(rest, Key(token)) && Fields(rest + [token])
    ensures Key(token) !in fields && Holds(fields[Key(token) := Value(token)], rest + [token])
  {
    hide Field, Key, Value, Fields;
    var all := rest + [token];
    assert all[|rest|] == token && forall i | 0 <= i < |rest| :: all[i] == rest[i];
    forall k ensures Named(all, k) <==> Named(rest, k) || k == Key(token) {
      if Named(rest, k) { var i :| 0 <= i < |rest| && Key(rest[i]) == k; assert Key(all[i]) == k; }
      if k == Key(token) { assert Key(all[|rest|]) == k; }
    }
    assert forall i | 0 <= i < |rest| :: Named(rest, Key(rest[i]));
  }

  /** The loop of parseFields. */
  method ParseFields(line: string) returns (fields: Option<map<string, string>>)
    ensures fields == FieldsOf(line)
  {
    hide Words, Field, Key, Value;
    var tokens := Words(line);
    var found: map<string, string> := map[];
    for i := 0 to |tokens|
      invariant Collect(tokens[..i]) == Some(found)
    {
      assert tokens[..i + 1][..i] == tokens[..i];
      var token := tokens[i];
      if !Field(token) || Key(token) in found {
        CollectStops(tokens, i + 1);
        return None;
      }
      found := found[Key(token) := Value(token)];
    }
    assert tokens[..|tokens|] == tokens;
    fields := if Get(found, "v") == "1" then Some(found) else None;
  }

  lemma {:induction false} CollectStops(tokens: seq<string>, i: nat)
    requires i <= |tokens| && Collect(tokens[..i]).None?
    ensures Collect(tokens).None?
    decreases |tokens| - i
  {
    if i == |tokens| {
      assert tokens[..i] == tokens;
    } else {
      assert tokens[..i + 1][..i] == tokens[..i];
      CollectStops(tokens, i + 1);
    }
  }

  /** Reading an absent key yields the empty string. */
  function Get(fields: map<string, string>, key: string): string {
    if key in fields then fields[key] else ""
  }

  function FieldsOf(line: string): Option<map<string, string>> {
    var fields := Collect(Words(line));
    if fields.Some? && Get(fields.value, "v") == "1" then fields else None
  }

  // ------------------------------------------------------------------ events

  /** ParseEvent, from the fields on. */
  function Decode(fields: map<string, string>): Option<Event> {
    var kind, id := Get(fields, "event"), Get(fields, "id");
    var time := ParseInt(Get(fields, "ts"));
    if time.None? || time.value <= 0 then None
    else if kind == "ready" then (if |fields| == 3 then Some(Event(kind, time.value, id, 0)) else None)
    else if kind == "start"
        then (if ValidValue(id) && |fields| == 4 then Some(Event(kind, time.value, id, 0)) else None)
    else if kind == "end" then
      var duration := ParseInt(Get(fields, "duration_ns"));
      if ValidValue(id) && duration.Some? && duration.value >= 0 && |fields| == 5
          then Some(Event(kind, time.value, id, duration.value)) else None
    else None
  }

  function ParseEvent(line: string): Option<Event> {
    match FieldsOf(line)
    case None => None
    case Some(fields) => Decode(fields)
  }

  /** WriteEvent: the line, unless the request identifier cannot be written. */
  function WriteEvent(event: Event): Option<string> {
    if (event.kind == "start" || event.kind == "end") && !ValidValue(event.id) then None
    else
      var line := "v=1 event=" + event.kind + " ts=" + FormatInt(event.time);
      var named := if event.kind == "start" || event.kind == "end" then line + " id=" + event.id else line;
      var timed := if event.kind == "end" then named + " duration_ns=" + FormatInt(event.duration) else named;
      Some(timed + "\n")
  }

  /** The events of the protocol. */
  predicate WellFormed(event: Event) {
    && event.kind in {"ready", "start", "end"}
    && 0 < event.time <= MAX_INT64
    && (if event.kind == "ready" then event.id == "" else ValidValue(event.id))
    && (if event.kind == "end" then 0 <= event.duration <= MAX_INT64 else event.duration == 0)
  }

  // ------------------------------------------------------------------ proofs

  function Token(key: string, value: string): string {
    key + "=" + value
  }

  lemma TokenIsField(key: string, value: string)
    requires key != "" && '=' !in key && ValidValue(value)
    ensures Field(Token(key, value)) && Key(Token(key, value)) == key && Value(Token(key, value)) == value
  {
    CutOfJoin(key, '=', Some(value));
    assert Token(key, value) == key + ['='] + value;
  }

  predicate PlainKey(key: string) {
    key != "" && forall i | 0 <= i < |key| :: ' ' < key[i] <= '~' && key[i] != '='
  }

  lemma TokenIsWord(key: string, value: string)
    requires PlainKey(key) && ValidValue(value)
    ensures Word(Token(key, value)) && '=' !in key
  {
    var token := Token(key, value);
    forall i | 0 <= i < |token| ensures !Space(token[i]) {
      if i < |key| { assert token[i] == key[i]; } else if i > |key| { assert token[i] == value[i - |key| - 1]; }
    }
  }

  lemma NumberIsValue(n: nat)
    ensures ValidValue(FormatInt(n))
  {
    hide Decimal;
  }

  /** One field more at the end of a list of fields. */
  lemma AppendToken(tokens: seq<string>, fields: map<string, string>, key: string, value: string)
    requires Collect(tokens) == Some(fields) && PlainKey(key) && ValidValue(value) && key !in fields
    ensures Collect(tokens + [Token(key, value)]) == Some(fields[key := value])
  {
    TokenIsWord(key, value);
    TokenIsField(key, value);
    hide Field, Key, Value, Token;
    assert (tokens + [Token(key, value)])[..|tokens|] == tokens;
  }

  lemma KeysPlain()
    ensures PlainKey("v") && PlainKey("event") && PlainKey("ts") && PlainKey("id") && PlainKey("duration_ns")
    ensures ValidValue("1") && ValidValue("ready") && ValidValue("start") && ValidValue("end")
  {
  }

  function Common(event: Event): map<string, string> {
    map["v" := "1", "event" := event.kind, "ts" := FormatInt(event.time)]
  }

  lemma CommonTokens(event: Event)
    requires WellFormed(event)
    ensures Collect([Token("v", "1"), Token("event", event.kind), Token("ts", FormatInt(event.time))]) ==
        Some(Common(event))
  {
    KeysPlain();
    NumberIsValue(event.time);
    hide Token, FormatInt, PlainKey, ValidValue;
    var none: map<string, string> := map[];
    assert Collect([]) == Some(none);
    AppendToken([], none, "v", "1");
    AppendToken([Token("v", "1")], none["v" := "1"], "event", event.kind);
    AppendToken([Token("v", "1"), Token("event", event.kind)], none["v" := "1"]["event" := event.kind], "ts",
        FormatInt(event.time));
    assert [] + [Token("v", "1")] == [Token("v", "1")];
    assert [Token("v", "1")] + [Token("event", event.kind)] == [Token("v", "1"), Token("event", event.kind)];
    assert [Token("v", "1"), Token("event", event.kind)] +
        [Token("ts", FormatInt(event.time))] ==
            [Token("v", "1"), Token("event", event.kind), Token("ts", FormatInt(event.time))];
  }

  function Head(event: Event): seq<string> {
    [Token("v", "1"), Token("event", event.kind), Token("ts", FormatInt(event.time))]
  }

  function Tokens(event: Event): seq<string> {
    if event.kind == "ready" then Head(event)
    else if event.kind == "start" then Head(event) + [Token("id", event.id)]
    else Head(event) + [Token("id", event.id)] + [Token("duration_ns", FormatInt(event.duration))]
  }

  function Written(event: Event): map<string, string> {
    if event.kind == "ready" then Common(event)
    else if event.kind == "start" then Common(event)["id" := event.id]
    else Common(event)["id" := event.id]["duration_ns" := FormatInt(event.duration)]
  }

  lemma TokensCollected(event: Event)
    requires WellFormed(event)
    ensures Collect(Tokens(event)) == Some(Written(event))
  {
    hide Token, FormatInt, PlainKey, ValidValue, Collect;
    KeysPlain();
    CommonTokens(event);
    if event.kind != "ready" {
      assert "id" !in Common(event);
      AppendToken(Head(event), Common(event), "id", event.id);
      if event.kind == "end" {
        NumberIsValue(event.duration);
        assert "duration_ns" !in Common(event)["id" := event.id];
        AppendToken(Head(event) + [Token("id", event.id)], Common(event)["id" := event.id], "duration_ns",
            FormatInt(event.duration));
      }
    }
  }

  lemma WrittenDecodes(event: Event)
    requires WellFormed(event)
    ensures Get(Written(event), "v") == "1" && Decode(Written(event)) == Some(event)
  {
    hide FormatInt, ParseInt, ValidValue;
    ParseOfFormat(event.time);
    if event.kind == "end" { ParseOfFormat(event.duration); }
  }

  lemma TokensAreWords(event: Event)
    requires WellFormed(event)
    ensures forall i | 0 <= i < |Tokens(event)| :: Word(Tokens(event)[i])
  {
    hide Token, FormatInt, PlainKey, ValidValue, Word;
    KeysPlain();
    NumberIsValue(event.time);
    TokenIsWord("v", "1");
    TokenIsWord("event", event.kind);
    TokenIsWord("ts", FormatInt(event.time));
    if event.kind != "ready" { TokenIsWord("id", event.id); }
    if event.kind == "end" { NumberIsValue(event.duration); TokenIsWord("duration_ns", FormatInt(event.duration)); }
  }

  function Joined(words: seq<string>): string
    requires |words| >= 1
  {
    if |words| == 1 then words[0] else Joined(words[..|words| - 1]) + " " + words[|words| - 1]
  }

  lemma {:induction false} LineJoined(words: seq<string>)
    requires |words| >= 1
    ensures Line(words) == Joined(words) + "\n"
    decreases |words|
  {
    if |words| > 1 {
      LineJoined(words[1..]);
      JoinedFront(words);
    }
  }

  lemma {:induction false} JoinedFront(words: seq<string>)
    requires |words| > 1
    ensures Joined(words) == words[0] + " " + Joined(words[1..])
    decreases |words|
  {
    var n := |words|;
    if n == 2 {
      assert words[..1] == [words[0]] && words[1..] == [words[1]];
    } else {
      JoinedFront(words[..n - 1]);
      assert words[..n - 1][1..] == words[1..][..n - 2];
      assert words[1..][n - 2] == words[n - 1];
    }
  }

  lemma JoinedMore(words: seq<string>, word: string)
    requires |words| >= 1
    ensures Joined(words + [word]) == Joined(words) + " " + word
  {
    assert (words + [word])[..|words|] == words;
  }

  /** A written line is its fields with a space between them. */
  lemma WriteIsLine(event: Event)
    requires WellFormed(event)
    ensures WriteEvent(event) == Some(Line(Tokens(event)))
  {
    hide FormatInt, ValidValue, Line;
    var kind, time := event.kind, FormatInt(event.time);
    HeadJoined(kind, time);
    var line := "v=1 event=" + kind + " ts=" + time;
    LineJoined(Tokens(event));
    if kind != "ready" {
      JoinedMore(Head(event), Token("id", event.id));
      assert line + " " + Token("id", event.id) == line + " id=" + event.id;
      if kind == "end" {
        var duration := FormatInt(event.duration);
        JoinedMore(Head(event) + [Token("id", event.id)], Token("duration_ns", duration));
        var named := line + " id=" + event.id;
        assert named + " " + Token("duration_ns", duration) == named + " duration_ns=" + duration;
      }
    }
  }

  lemma HeadJoined(kind: string, time: string)
    ensures Joined([Token("v", "1"), Token("event", kind), Token("ts", time)]) == "v=1 event=" + kind + " ts=" + time
  {
    var v, e, t := Token("v", "1"), Token("event", kind), Token("ts", time);
    assert [v, e, t] == [v] + [e] + [t];
    JoinedMore([v], e);
    JoinedMore([v] + [e], t);
    assert v + " " + e == "v=1 event=" + kind;
    assert "v=1 event=" + kind + " " + t == "v=1 event=" + kind + " ts=" + time;
  }

  /** Reading a written event gives it back. */
  lemma RoundTrip(event: Event)
    requires WellFormed(event)
    ensures WriteEvent(event).Some? && ParseEvent(WriteEvent(event).value) == Some(event)
  {
    hide Line, Words, Tokens, Written, Decode, Collect, Get, WriteEvent;
    WriteIsLine(event);
    TokensAreWords(event);
    TokensCount(event);
    WordsOfLine(Tokens(event));
    TokensCollected(event);
    WrittenDecodes(event);
  }

  lemma TokensCount(event: Event)
    ensures |Tokens(event)| >= 1
  {
  }

  // -------------------------------------------------------- what is accepted

  /** The fields of each kind of event. */
  function FieldsFor(kind: string): set<string> {
    if kind == "ready" then {"v", "event", "ts"}
    else if kind == "start" then {"v", "event", "ts", "id"}
    else {"v", "event", "ts", "id", "duration_ns"}
  }

  /** An accepted line has exactly the fields of its kind, each once, and says a
      well-formed event: what is accepted could have been written. */
  lemma AcceptedIsWellFormed(line: string)
    requires ParseEvent(line).Some?
    ensures WellFormed(ParseEvent(line).value)
    ensures FieldsOf(line).value.Keys == FieldsFor(ParseEvent(line).value.kind)
    ensures |Words(line)| == |FieldsFor(ParseEvent(line).value.kind)|
  {
    var fields := FieldsOf(line).value;
    CollectMeans(Words(line));
    AcceptedKeys(fields);
  }

  lemma AcceptedKeys(fields: map<string, string>)
    requires Decode(fields).Some? && Get(fields, "v") == "1"
    ensures fields.Keys == FieldsFor(Decode(fields).value.kind) && WellFormed(Decode(fields).value)
    ensures |fields| == |FieldsFor(Decode(fields).value.kind)|
  {
    assert ParseInt("").None?;
    assert Get(fields, "ts") != "" && Get(fields, "event") != "";
    var kind := Decode(fields).value.kind;
    if kind == "ready" {
      KindSizes();
      EqualSize(FieldsFor(kind), fields.Keys);
      assert "id" !in fields.Keys;
    } else {
      KindSizes();
      EqualSize(FieldsFor(kind), fields.Keys);
    }
  }

  lemma KindSizes()
    ensures |FieldsFor("ready")| == 3 && |FieldsFor("start")| == 4 && |FieldsFor("end")| == 5
  {
  }

  /** Two lines with the same tokens, in any order, are read alike. */
  lemma OrderIndependent(one: string, other: string)
    requires multiset(Words(one)) == multiset(Words(other))
    ensures ParseEvent(one) == ParseEvent(other)
  {
    hide Words, Decode, Get;
    CollectAlike(Words(one), Words(other));
  }

  lemma CollectAlike(tokens: seq<string>, others: seq<string>)
    requires multiset(tokens) == multiset(others)
    ensures Collect(tokens) == Collect(others)
  {
    hide Field, Key, Value, Fields, Holds;
    if Fields(tokens) { FieldsAlike(tokens, others); }
    if Fields(others) { FieldsAlike(others, tokens); }
    CollectMeans(tokens);
    CollectMeans(others);
    if Fields(tokens) {
      var f, g := Collect(tokens).value, Collect(others).value;
      forall k | k in f ensures k in g && f[k] == g[k] { HeldAlike(tokens, others, f, g, k); }
      forall k | k in g ensures k in f { HeldAlike(others, tokens, g, f, k); }
      assert f == g;
    }
  }

  lemma HeldAlike(tokens: seq<string>, others: seq<string>, f: map<string, string>, g: map<string, string>, k: string)
    requires multiset(tokens) == multiset(others) && Fields(tokens) && Fields(others) && Holds(f, tokens)
    requires Holds(g, others) && k in f
    ensures k in g && f[k] == g[k]
  {
    hide Field, Key, Value;
    assert Named(tokens, k);
    var i :| 0 <= i < |tokens| && Key(tokens[i]) == k;
    var j := SomewhereElse(tokens, others, i);
  }

  lemma SomewhereElse(tokens: seq<string>, others: seq<string>, i: nat) returns (j: nat)
    requires multiset(tokens) == multiset(others) && i < |tokens|
    ensures j < |others| && others[j] == tokens[i]
  {
    assert tokens[i] in multiset(tokens);
    assert tokens[i] in others;
    j :| 0 <= j < |others| && others[j] == tokens[i];
  }

  lemma FieldsAlike(tokens: seq<string>, others: seq<string>)
    requires multiset(tokens) == multiset(others) && Fields(tokens)
    ensures Fields(others)
  {
    hide Field, Key;
    forall i | 0 <= i < |others| ensures Field(others[i]) { var k := SomewhereElse(others, tokens, i); }
    forall i, j | 0 <= i < j < |others| ensures Key(others[i]) != Key(others[j]) {
      var a := SomewhereElse(others, tokens, i);
      var b := SomewhereElse(others, tokens, j);
      if a == b { TwiceIn(others, i, j); OnceIn(tokens, a); }
    }
  }

  lemma TwiceIn(tokens: seq<string>, i: nat, j: nat)
    requires i < j < |tokens| && tokens[i] == tokens[j]
    ensures multiset(tokens)[tokens[i]] >= 2
  {
    assert tokens == tokens[..j] + [tokens[j]] + tokens[j + 1..];
    assert tokens[..j][i] == tokens[i];
    assert tokens[i] in multiset(tokens[..j]);
  }

  lemma OnceIn(tokens: seq<string>, a: nat)
    requires Fields(tokens) && a < |tokens|
    ensures multiset(tokens)[tokens[a]] == 1
  {
    hide Field, Key;
    var before, after := tokens[..a], tokens[a + 1..];
    assert tokens == before + [tokens[a]] + after;
    assert tokens[a] !in before && tokens[a] !in after;
  }

  /** A repeated key is always rejected, even with the same value. */
  lemma DuplicateRejected(line: string, i: nat, j: nat)
    requires i < j < |Words(line)| && Key(Words(line)[i]) == Key(Words(line)[j])
    ensures ParseEvent(line).None?
  {
    hide Words, Key;
    CollectMeans(Words(line));
  }
}
