/** Which session a request belongs to. */
module SessionKey {
  import opened Options
  import opened Content

  const SYSTEM_LIMIT: nat := 8000
  const FIRST_MESSAGE_LIMIT: nat := 4000
  const AGENT_HEADER := "x-claude-code-agent-id"
  const PARENT_AGENT_HEADER := "x-claude-code-parent-agent-id"

  /** The parts of a request body the key is derived from. */
  datatype RequestData = RequestData(system: Content, messages: seq<Message>)

  datatype KeySource = FromHeader | Derived

  /** Header names are lower-cased and values stripped before they get here. */
  type Headers = map<string, string>

  function Header(headers: Headers, name: string): string {
    if name in headers then headers[name] else ""
  }

  /** The first non-empty session header in priority order. */
  function SessionIdFromHeaders(headers: Headers, names: seq<string>): (r: string)
    ensures r == "" <==> forall n :: n in names ==> Header(headers, n) == ""
  {
    if names == [] then ""
    else if Header(headers, names[0]) != "" then Header(headers, names[0])
    else SessionIdFromHeaders(headers, names[1..])
  }

  /** Priority: the header found is the first non-empty one. */
  lemma {:induction false} SessionHeaderPriority(headers: Headers, names: seq<string>)
    requires SessionIdFromHeaders(headers, names) != ""
    ensures exists i: nat :: FirstNonEmpty(headers, names, i)
                        && Header(headers, names[i]) == SessionIdFromHeaders(headers, names)
  {
    if Header(headers, names[0]) != "" {
      assert FirstNonEmpty(headers, names, 0);
    } else {
      SessionHeaderPriority(headers, names[1..]);
      var i: nat :| FirstNonEmpty(headers, names[1..], i)
               && Header(headers, names[1..][i]) == SessionIdFromHeaders(headers, names[1..]);
      forall j | 0 <= j < i + 1 ensures Header(headers, names[j]) == "" {
        assert j > 0 ==> names[j] == names[1..][j - 1];
      }
      assert FirstNonEmpty(headers, names, i + 1);
    }
  }

  predicate FirstNonEmpty(headers: Headers, names: seq<string>, i: nat) {
    i < |names| && Header(headers, names[i]) != "" && forall j :: 0 <= j < i ==> Header(headers, names[j]) == ""
  }

  /** A missing or empty agent header counts as absent. */
  function AgentId(headers: Headers, name: string): Option<string> {
    if Header(headers, name) == "" then None else Some(Header(headers, name))
  }

  predicate HasRole(messages: seq<Message>, role: string) {
    exists m :: m in messages && m.Message? && m.role == role
  }

  /** The text of the first message with the given role, or "" when there is none. */
  function FirstTextOfRole(messages: seq<Message>, role: string, limit: nat): string {
    if messages == [] then ""
    else if messages[0].Message? && messages[0].role == role then Flattened(messages[0].content, limit)
    else FirstTextOfRole(messages[1..], role, limit)
  }

  predicate Truthy(c: Content) {
    match c
    case Text(s) => s != ""
    case Blocks(bs) => bs != []
    case Other(t) => t
  }

  function FirstUserMessageText(data: RequestData): string {
    FirstTextOfRole(data.messages, "user", FIRST_MESSAGE_LIMIT)
  }

  /** A truthy top-level system value wins, even one that holds no text. */
  function SystemText(data: RequestData): string {
    if Truthy(data.system) then Flattened(data.system, SYSTEM_LIMIT)
    else FirstTextOfRole(data.messages, "system", SYSTEM_LIMIT)
  }

  /** `hash` stands for the truncated SHA-256 digest. */
  function DeriveSessionKey(data: RequestData, headers: Headers, alias: string, names: seq<string>,
                            hash: string -> string): (string, KeySource)
  {
    var id := SessionIdFromHeaders(headers, names);
    if id != "" then (id, FromHeader)
    else (hash(alias + hash(SystemText(data)) + hash(FirstUserMessageText(data))), Derived)
  }

  lemma {:induction false} FirstTextAfterAppend(a: seq<Message>, b: seq<Message>, role: string, limit: nat)
    ensures HasRole(a, role) ==> FirstTextOfRole(a + b, role, limit) == FirstTextOfRole(a, role, limit)
    ensures !HasRole(a, role) ==> FirstTextOfRole(a, role, limit) == ""
                                  && FirstTextOfRole(a + b, role, limit) == FirstTextOfRole(b, role, limit)
  {
    if a == [] {
      assert a + b == b;
    } else {
      assert (a + b)[1..] == a[1..] + b;
      FirstTextAfterAppend(a[1..], b, role, limit);
      assert HasRole(a, role) <==> (a[0].Message? && a[0].role == role) || HasRole(a[1..], role) by {
        assert a == [a[0]] + a[1..];
      }
    }
  }

  /** Later turns leave the opener alone: the texts a derived key is made of survive appended
      messages exactly when each was already fixed, or nothing appended supplies it. */
  ghost predicate OpenerFixed(data: RequestData, more: seq<Message>) {
    && (Truthy(data.system) || HasRole(data.messages, "system")
        || FirstTextOfRole(more, "system", SYSTEM_LIMIT) == "")
    && (HasRole(data.messages, "user") || FirstTextOfRole(more, "user", FIRST_MESSAGE_LIMIT) == "")
  }

  lemma OpenerSurvivesExactly(data: RequestData, more: seq<Message>)
    ensures var later := data.(messages := data.messages + more);
            (SystemText(later) == SystemText(data) && FirstUserMessageText(later) == FirstUserMessageText(data))
            <==> OpenerFixed(data, more)
  {
    FirstTextAfterAppend(data.messages, more, "system", SYSTEM_LIMIT);
    FirstTextAfterAppend(data.messages, more, "user", FIRST_MESSAGE_LIMIT);
  }

  /** A replayed conversation keeps its key under every hash function if and only if it has a
      session header, under which it keeps it unconditionally, or its opener is fixed. */
  lemma DerivedKeyIsStable(data: RequestData, more: seq<Message>, headers: Headers, alias: string, names: seq<string>)
    ensures var later := data.(messages := data.messages + more);
            (forall hash: string -> string ::
               DeriveSessionKey(later, headers, alias, names, hash)
               == DeriveSessionKey(data, headers, alias, names, hash))
            <==> SessionIdFromHeaders(headers, names) != "" || OpenerFixed(data, more)
  {
    var later := data.(messages := data.messages + more);
    if SessionIdFromHeaders(headers, names) == "" {
      OpenerSurvivesExactly(data, more);
      if !OpenerFixed(data, more) {
        TextsOnlyAppear(data, more);
        var identity: string -> string := (s: string) => s;
        assert |alias + SystemText(later) + FirstUserMessageText(later)|
               > |alias + SystemText(data) + FirstUserMessageText(data)|;
        assert DeriveSessionKey(later, headers, alias, names, identity)
               != DeriveSessionKey(data, headers, alias, names, identity);
      }
    }
  }

  /** Appended messages never change a text that is there; they may supply one that is missing. */
  lemma TextsOnlyAppear(data: RequestData, more: seq<Message>)
    ensures var later := data.(messages := data.messages + more);
            && (SystemText(later) == SystemText(data) || SystemText(data) == "")
            && (FirstUserMessageText(later) == FirstUserMessageText(data) || FirstUserMessageText(data) == "")
  {
    FirstTextAfterAppend(data.messages, more, "system", SYSTEM_LIMIT);
    FirstTextAfterAppend(data.messages, more, "user", FIRST_MESSAGE_LIMIT);
  }

  /** The other side of the previous lemma at a real input: a conversation that gains its first system message
      later can change session. */
  lemma LateSystemMessageChangesTheKey(alias: string)
    ensures var data := RequestData(Other(false), [Message("user", Text("hi"))]);
            var later := data.(messages := data.messages + [Message("system", Text("s"))]);
            exists hash: string -> string ::
              DeriveSessionKey(later, map[], alias, [], hash) != DeriveSessionKey(data, map[], alias, [], hash)
  {
    var data := RequestData(Other(false), [Message("user", Text("hi"))]);
    var more := [Message("system", Text("s"))];
    var later := data.(messages := data.messages + more);
    FirstTextAfterAppend(data.messages, more, "system", SYSTEM_LIMIT);
    FirstTextAfterAppend(data.messages, more, "user", FIRST_MESSAGE_LIMIT);
    assert SystemText(later) == "s" && SystemText(data) == "";
    var identity: string -> string := (s: string) => s;
    var u := FirstUserMessageText(data);
    assert |alias + "s" + u| == |alias + "" + u| + 1;
    assert DeriveSessionKey(later, map[], alias, [], identity).0 == alias + "s" + u;
    assert DeriveSessionKey(data, map[], alias, [], identity).0 == alias + "" + u;
  }

  // ---------------------------------------------------------------- what the key depends on

  /** Position i holds the first message with the given role. */
  predicate FirstOfRole(messages: seq<Message>, role: string, i: nat) {
    i < |messages| && messages[i].Message? && messages[i].role == role
    && forall j :: 0 <= j < i ==> !(messages[j].Message? && messages[j].role == role)
  }

  lemma {:induction false} FirstTextAt(messages: seq<Message>, role: string, limit: nat, i: nat)
    ensures FirstOfRole(messages, role, i) ==>
              FirstTextOfRole(messages, role, limit) == Flattened(messages[i].content, limit)
    ensures !HasRole(messages, role) ==> FirstTextOfRole(messages, role, limit) == ""
  {
    if messages != [] {
      assert messages[0] in messages;
      assert forall m :: m in messages[1..] ==> m in messages;
      FirstTextAt(messages[1..], role, limit, if i == 0 then 0 else i - 1);
      if i > 0 && FirstOfRole(messages, role, i) {
        assert forall j :: 0 <= j < i - 1 ==> messages[1..][j] == messages[j + 1];
      }
    }
  }

  /** A truthy top-level system value decides, with at most 8000 characters of its text; otherwise the
      first system message does. The opener is at most 4000 characters of the first user message. */
  lemma TextsBehindTheKey(data: RequestData, i: nat)
    ensures !Truthy(data.system) <==> data.system in {Text(""), Blocks([]), Other(false)}
    ensures Truthy(data.system) ==> SystemText(data) == Flattened(data.system, 8000)
    ensures !Truthy(data.system) && FirstOfRole(data.messages, "system", i) ==>
              SystemText(data) == Flattened(data.messages[i].content, 8000)
    ensures !Truthy(data.system) && !HasRole(data.messages, "system") ==> SystemText(data) == ""
    ensures FirstOfRole(data.messages, "user", i) ==>
              FirstUserMessageText(data) == Flattened(data.messages[i].content, 4000)
    ensures !HasRole(data.messages, "user") ==> FirstUserMessageText(data) == ""
  {
    FirstTextAt(data.messages, "system", SYSTEM_LIMIT, i);
    FirstTextAt(data.messages, "user", FIRST_MESSAGE_LIMIT, i);
  }

  function Repeated(c: char, n: nat): (r: string)
    ensures |r| == n && forall i :: 0 <= i < n ==> r[i] == c
  {
    seq(n, i => c)
  }

  /** A hash that tells one text apart from the other three, by outputs longer than all of them, and
      leaves everything longer alone. */
  function Separating(text: string, n: nat): string -> string {
    (s: string) => if s == text then Repeated('1', n) else if |s| < n then Repeated('0', n) else s
  }

  /** Without a session header, two requests share a session under every hash function if and only if
      their key aliases, system texts and openers all agree. */
  lemma DerivedKeysAgreeExactly(data: RequestData, alias: string, other: RequestData, otherAlias: string,
                                headers: Headers, names: seq<string>)
    requires SessionIdFromHeaders(headers, names) == ""
    ensures (forall hash: string -> string ::
               DeriveSessionKey(data, headers, alias, names, hash)
               == DeriveSessionKey(other, headers, otherAlias, names, hash))
            <==> alias == otherAlias && SystemText(data) == SystemText(other)
                 && FirstUserMessageText(data) == FirstUserMessageText(other)
  {
    var a, b, a1, b1 := SystemText(data), FirstUserMessageText(data), SystemText(other), FirstUserMessageText(other);
    var n := 1 + |a| + |b| + |a1| + |b1|;
    if !(alias == otherAlias && a == a1 && b == b1) {
      var text := if a != a1 then a else b;
      SeparatingTells(text, n, a, a1);
      SeparatingTells(text, n, b, b1);
      KeysDiffer(data, alias, other, otherAlias, headers, names, Separating(text, n), n);
    }
  }

  lemma SeparatingTells(text: string, n: nat, a: string, b: string)
    requires |text| < n && |a| < n && |b| < n
    ensures var hash := Separating(text, n);
            && |hash(a)| == |hash(b)| == n
            && (text == a && a != b ==> hash(a) != hash(b))
  {
    assert Repeated('1', n)[0] != Repeated('0', n)[0];
  }

  lemma KeysDiffer(data: RequestData, alias: string, other: RequestData, otherAlias: string,
                   headers: Headers, names: seq<string>, hash: string -> string, n: nat)
    requires SessionIdFromHeaders(headers, names) == ""
    requires forall s :: |s| > n ==> hash(s) == s
    requires var a, b := hash(SystemText(data)), hash(FirstUserMessageText(data));
             var a1, b1 := hash(SystemText(other)), hash(FirstUserMessageText(other));
             && |a| == |b| == |a1| == |b1| == n > 0
             && (alias != otherAlias || a != a1 || b != b1)
    ensures DeriveSessionKey(data, headers, alias, names, hash)
            != DeriveSessionKey(other, headers, otherAlias, names, hash)
  {
    var a, b := hash(SystemText(data)), hash(FirstUserMessageText(data));
    var a1, b1 := hash(SystemText(other)), hash(FirstUserMessageText(other));
    assert |alias + a + b| > n && |otherAlias + a1 + b1| > n;
    PartsAreDetermined(alias, a, b, otherAlias, a1, b1);
  }

  lemma PartsAreDetermined(x: string, a: string, b: string, y: string, c: string, d: string)
    requires |a| == |c| && |b| == |d|
    ensures x + a + b == y + c + d <==> x == y && a == c && b == d
  {
    if x + a + b == y + c + d {
      assert x == (x + a + b)[..|x|] && y == (y + c + d)[..|y|];
      assert a == (x + a + b)[|x|..|x| + |a|] && c == (y + c + d)[|y|..|y| + |c|];
      assert b == (x + a + b)[|x| + |a|..] && d == (y + c + d)[|y| + |c|..];
    }
  }

  /** With a session header, the key is its value, whatever else the request holds. */
  lemma HeaderIsTheKey(data: RequestData, alias: string, headers: Headers, names: seq<string>, hash: string -> string)
    ensures SessionIdFromHeaders(headers, names) != "" ==>
              DeriveSessionKey(data, headers, alias, names, hash) == (SessionIdFromHeaders(headers, names), FromHeader)
    ensures SessionIdFromHeaders(headers, names) == "" ==>
              DeriveSessionKey(data, headers, alias, names, hash).1 == Derived
  {
  }
}
