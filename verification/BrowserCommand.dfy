/** The discard command sent to the browser extension: escaping an identifier and extracting it again. */
module BrowserCommand {

  // ----- the specification -----

  /** What the escape makes of one character: a carriage return vanishes. */
  function EscapeChar(c: char): string {
    if c == '\n' then "\\n"
    else if c == '\r' then ""
    else if c == '\\' || c == '"' then ['\\', c]
    else [c]
  }

  function Escaped(value: string): string {
    if |value| == 0 then "" else Escaped(value[..|value| - 1]) + EscapeChar(value[|value| - 1])
  }

  /** What is read back up to the closing quote: a backslash makes the next character stand for itself. */
  function Unescaped(text: string, escaped: bool): string {
    if |text| == 0 then ""
    else if escaped then [text[0]] + Unescaped(text[1..], false)
    else if text[0] == '\\' then Unescaped(text[1..], true)
    else if text[0] == '"' then ""
    else [text[0]] + Unescaped(text[1..], false)
  }

  /** White space of the C locale: horizontal tab to carriage return, and the blank. */
  predicate IsSpace(c: char) {
    c == ' ' || '\t' <= c <= '\r'
  }

  function SkipSpace(text: string): string {
    if |text| > 0 && IsSpace(text[0]) then SkipSpace(text[1..]) else text
  }

  /** The string value that follows a key, empty when something other than a quote follows. */
  function ValueAt(text: string): string {
    var trimmed := SkipSpace(text);
    if |trimmed| == 0 || trimmed[0] != '"' then "" else Unescaped(trimmed[1..], false)
  }

  /** A quoted value is read through any white space before it; anything else in its place is no value. */
  lemma {:induction false} ValueAfterSpace(space: string, text: string)
    requires forall c | c in space :: c == ' ' || 9 <= c as int <= 13
    requires |text| > 0 && text[0] != ' ' && !(9 <= text[0] as int <= 13)
    ensures ValueAt(space + text) == if text[0] == '"' then Unescaped(text[1..], false) else ""
  {
    SkipsSpace(space, text);
  }

  lemma {:induction false} SkipsSpace(space: string, text: string)
    requires forall c | c in space :: c == ' ' || 9 <= c as int <= 13
    requires |text| > 0 && text[0] != ' ' && !(9 <= text[0] as int <= 13)
    ensures SkipSpace(space + text) == text
  {
    if |space| == 0 {
      assert space + text == text;
    } else {
      assert space[0] in space && (space + text)[1..] == space[1..] + text;
      assert forall c | c in space[1..] :: c in space;
      SkipsSpace(space[1..], text);
    }
  }

  function Marker(key: string): string {
    "\"" + key + "\":"
  }

  ghost predicate OccursAt(text: string, part: string, p: nat) {
    p + |part| <= |text| && text[p..p + |part|] == part
  }

  ghost predicate FirstAt(text: string, part: string, p: nat) {
    OccursAt(text, part, p) && forall q: nat | q < p :: !OccursAt(text, part, q)
  }

  const OPENING := "{\"command\":\"discard_tab\","

  /** The command that is queued; the tab number arrives as its decimal text. */
  function DiscardCommand(transactionId: string, tabText: string): string {
    OPENING + Marker("transactionId") + "\"" + Escaped(transactionId) + "\",\"tabId\":" + tabText + "}"
  }

  // ----- the round trip -----

  /** What a round trip leaves of an identifier: carriage returns removed, newlines turned into the letter n. */
  function RoundTripped(value: string): string {
    if |value| == 0 then ""
    else
      var c := value[|value| - 1];
      RoundTripped(value[..|value| - 1]) + (if c == '\r' then "" else if c == '\n' then "n" else [c])
  }

  ghost predicate SingleLine(value: string) {
    '\r' !in value && '\n' !in value
  }

  /** Reading on across the text of one escaped character gives that character. */
  lemma {:induction false} UnescapesChar(c: char, rest: string)
    ensures Unescaped(EscapeChar(c) + rest, false)
            == (if c == '\r' then "" else if c == '\n' then "n" else [c]) + Unescaped(rest, false)
  {
    var text := EscapeChar(c) + rest;
    if c == '\r' {
      assert text == rest;
    } else if |EscapeChar(c)| == 2 {
      assert text[1..][1..] == rest;
      assert Unescaped(text, false) == Unescaped(text[1..], true) == [text[1]] + Unescaped(text[1..][1..], false);
    } else {
      assert text[1..] == rest;
    }
  }

  lemma {:induction false} UnescapesAll(value: string, rest: string)
    ensures Unescaped(Escaped(value) + rest, false) == RoundTripped(value) + Unescaped(rest, false)
  {
    hide Unescaped, EscapeChar;
    if |value| == 0 {
      assert "" + rest == rest;
      assert "" + Unescaped(rest, false) == Unescaped(rest, false);
    } else {
      var n, c := |value| - 1, value[|value| - 1];
      UnescapesChar(c, rest);
      UnescapesAll(value[..n], EscapeChar(c) + rest);
      assert Escaped(value) + rest == Escaped(value[..n]) + (EscapeChar(c) + rest);
      assert RoundTripped(value) + Unescaped(rest, false)
             == RoundTripped(value[..n])
                + ((if c == '\r' then "" else if c == '\n' then "n" else [c]) + Unescaped(rest, false));
    }
  }

  lemma {:induction false} OccurrenceStarts(text: string, part: string, p: nat)
    requires OccursAt(text, part, p) && |part| >= 2
    ensures text[p] == part[0] && text[p + 1] == part[1]
  {
    var slice := text[p..p + |part|];
    assert text[p] == slice[0] && text[p + 1] == slice[1];
  }

  /** The marker starts with a quote and a t, which do not follow each other in the opening. */
  lemma {:induction false} MarkerIsFirst(tail: string)
    ensures FirstAt(OPENING + Marker("transactionId") + tail, Marker("transactionId"), |OPENING|)
  {
    var text, marker := OPENING + Marker("transactionId") + tail, Marker("transactionId");
    assert |OPENING| == 25 && |marker| == 16;
    assert text[25..25 + 16] == marker;
    assert forall q | 0 <= q < 24 && OPENING[q] == '"' :: q in {1, 9, 11, 23} && OPENING[q + 1] in {'c', ':', 'd', ','};
    assert OPENING[24] == ',';
    forall q: nat | q < 25
      ensures !OccursAt(text, marker, q)
    {
      assert text[q] == OPENING[q];
      assert q < 24 ==> text[q + 1] == OPENING[q + 1];
      assert marker[0] == '"' && marker[1] == 't';
      assert !(text[q] == marker[0] && text[q + 1] == marker[1]);
      NotAtOtherStart(text, marker, q);
    }
  }

  lemma {:induction false} NotAtOtherStart(text: string, part: string, p: nat)
    requires |part| >= 2 && p + 1 < |text| && !(text[p] == part[0] && text[p + 1] == part[1])
    ensures !OccursAt(text, part, p)
  {
    if OccursAt(text, part, p) {
      OccurrenceStarts(text, part, p);
      assert false;
    }
  }

  /** Extracting the identifier from the command returns it without carriage returns and with `n` for newlines. */
  lemma {:induction false} ExtractsWhatWasPrinted(transactionId: string, tabText: string)
    ensures var command := DiscardCommand(transactionId, tabText);
            var key := Marker("transactionId");
            && FirstAt(command, key, |OPENING|)
            && ValueAt(command[|OPENING| + |key|..]) == RoundTripped(transactionId)
            && (ValueAt(command[|OPENING| + |key|..]) == transactionId <==> SingleLine(transactionId))
  {
    hide Unescaped, Escaped, RoundTripped, FirstAt;
    var key, command := Marker("transactionId"), DiscardCommand(transactionId, tabText);
    var rest := "\",\"tabId\":" + tabText + "}";
    var tail := "\"" + Escaped(transactionId) + rest;
    assert command == OPENING + key + tail;
    MarkerIsFirst(tail);
    assert command[|OPENING| + |key|..] == tail;
    assert SkipSpace(tail) == tail;
    assert tail[1..] == Escaped(transactionId) + rest;
    UnescapesAll(transactionId, rest);
    StopsAtQuote(rest);
    assert RoundTripped(transactionId) + "" == RoundTripped(transactionId);
    FaithfulExactlyOnSingleLines(transactionId);
  }

  lemma {:induction false} StopsAtQuote(text: string)
    requires |text| > 0 && text[0] == '"'
    ensures Unescaped(text, false) == ""
  {
  }

  /** The two are inverse to each other on an identifier exactly when it has no carriage return and no newline. */
  lemma {:induction false} FaithfulExactlyOnSingleLines(value: string)
    ensures |RoundTripped(value)| <= |value|
    ensures RoundTripped(value) == value <==> SingleLine(value)
  {
    if |value| > 0 {
      var n, c := |value| - 1, value[|value| - 1];
      var front := RoundTripped(value[..n]);
      FaithfulExactlyOnSingleLines(value[..n]);
      assert value == value[..n] + [c];
      if RoundTripped(value) == value {
        assert c != '\r';
        assert value[..n] == RoundTripped(value)[..n] == front;
        assert value[n] == RoundTripped(value)[n];
      }
      if SingleLine(value) {
        assert c in value && '\r' !in value[..n] && '\n' !in value[..n];
      }
    }
  }

  function WithoutReturns(value: string): string {
    if |value| == 0 then ""
    else WithoutReturns(value[..|value| - 1]) + (if value[|value| - 1] == '\r' then "" else [value[|value| - 1]])
  }

  /** Escaping loses carriage returns and nothing else: two identifiers share a command only if they differ in those. */
  lemma {:induction false} EscapeLosesOnlyReturns(a: string, b: string)
    ensures Escaped(a) == Escaped(b) <==> WithoutReturns(a) == WithoutReturns(b)
  {
    EscapedIsEscapedWithoutReturns(a);
    EscapedIsEscapedWithoutReturns(b);
    if Escaped(a) == Escaped(b) {
      NoReturns(a);
      NoReturns(b);
      EscapeIsInjective(WithoutReturns(a), WithoutReturns(b));
    }
  }

  lemma {:induction false} EscapedIsEscapedWithoutReturns(value: string)
    ensures Escaped(value) == Escaped(WithoutReturns(value))
  {
    if |value| > 0 {
      var n, c := |value| - 1, value[|value| - 1];
      EscapedIsEscapedWithoutReturns(value[..n]);
      var kept := WithoutReturns(value);
      if c == '\r' {
        assert kept == WithoutReturns(value[..n]);
        assert Escaped(value) == Escaped(value[..n]);
      } else {
        assert kept[..|kept| - 1] == WithoutReturns(value[..n]);
      }
    }
  }

  lemma {:induction false} NoReturns(value: string)
    ensures '\r' !in WithoutReturns(value)
  {
    if |value| > 0 {
      NoReturns(value[..|value| - 1]);
    }
  }

  /** A reader that does turn an escaped n into a newline: it would invert the escape, short of carriage returns. */
  function Decoded(text: string): string {
    if |text| == 0 then ""
    else if text[0] == '\\' && |text| > 1
    then [if text[1] == 'n' then '\n' else text[1]] + Decoded(text[2..])
    else [text[0]] + Decoded(text[1..])
  }

  lemma {:induction false} DecodesChar(c: char, rest: string)
    requires c != '\r'
    ensures Decoded(EscapeChar(c) + rest) == [c] + Decoded(rest)
  {
    var text := EscapeChar(c) + rest;
    if |EscapeChar(c)| == 2 {
      assert text[2..] == rest;
    } else {
      assert text[1..] == rest;
    }
  }

  lemma {:induction false} DecodesAll(value: string, rest: string)
    requires '\r' !in value
    ensures Decoded(Escaped(value) + rest) == value + Decoded(rest)
  {
    hide Decoded, EscapeChar;
    if |value| == 0 {
      assert "" + rest == rest;
      assert value + Decoded(rest) == Decoded(rest);
    } else {
      var n, c := |value| - 1, value[|value| - 1];
      DecodesChar(c, rest);
      DecodesAll(value[..n], EscapeChar(c) + rest);
      assert Escaped(value) + rest == Escaped(value[..n]) + (EscapeChar(c) + rest);
      assert value + Decoded(rest) == value[..n] + ([c] + Decoded(rest));
    }
  }

  lemma {:induction false} EscapeIsInjective(a: string, b: string)
    requires '\r' !in a && '\r' !in b && Escaped(a) == Escaped(b)
    ensures a == b
  {
    hide Decoded;
    DecodesAll(a, "");
    DecodesAll(b, "");
    assert a + Decoded("") == b + Decoded("");
    assert |a| == |b|;
    assert a == (a + Decoded(""))[..|a|];
    assert b == (b + Decoded(""))[..|b|];
  }

  // ----- the implementation -----

  method EscapeJson(value: string) returns (result: string)
    ensures result == Escaped(value)
  {
    result := "";
    for i := 0 to |value|
      invariant result == Escaped(value[..i])
    {
      var c := value[i];
      assert value[..i + 1][..i] == value[..i];
      ghost var before := result;
      if c == '\\' || c == '"' {
        result := result + ['\\'];
      }
      if c == '\n' {
        result := result + "\\n";
      } else if c != '\r' {
        result := result + [c];
      }
      assert result == before + EscapeChar(c);
    }
    assert value[..|value|] == value;
  }

  method Find(text: string, part: string) returns (position: int)
    ensures position == -1 ==> forall p: nat :: !OccursAt(text, part, p)
    ensures position != -1 ==> position >= 0 && FirstAt(text, part, position)
  {
    position := 0;
    while position + |part| <= |text|
      invariant position >= 0
      invariant forall p: nat | p < position :: !OccursAt(text, part, p)
    {
      if text[position..position + |part|] == part {
        return;
      }
      position := position + 1;
    }
    position := -1;
  }

  /** The value of the first occurrence of the key, and empty if there is none. */
  method ExtractJsonString(json: string, key: string) returns (result: string)
    ensures forall p: nat | FirstAt(json, Marker(key), p) :: result == ValueAt(json[p + |Marker(key)|..])
    ensures (forall p: nat :: !OccursAt(json, Marker(key), p)) ==> result == ""
  {
    var marker := Marker(key);
    var keyPosition := Find(json, marker);
    if keyPosition == -1 {
      return "";
    }
    assert forall p: nat | FirstAt(json, marker, p) :: p == keyPosition;
    hide Marker, FirstAt, OccursAt, ValueAt;
    result := ReadValue(json, keyPosition + |marker|);
  }

  /** Skips white space and reads a quoted value, if there is one. */
  method ReadValue(json: string, start: nat) returns (result: string)
    requires start <= |json|
    ensures result == ValueAt(json[start..])
  {
    hide Unescaped;
    var position := start;
    while position < |json| && IsSpace(json[position])
      invariant start <= position <= |json|
      invariant SkipSpace(json[position..]) == SkipSpace(json[start..])
    {
      assert json[position..][1..] == json[position + 1..];
      position := position + 1;
    }
    if position >= |json| || json[position] != '"' {
      return "";
    }
    assert json[position..][1..] == json[position + 1..];
    position := position + 1;
    result := Scan(json, position);
  }

  /** The character loop of the extraction. */
  method Scan(json: string, start: nat) returns (result: string)
    requires start <= |json|
    ensures result == Unescaped(json[start..], false)
  {
    var escaped := false;
    var position := start;
    result := "";
    while position < |json|
      invariant start <= position <= |json|
      invariant result + Unescaped(json[position..], escaped) == Unescaped(json[start..], false)
    {
      var current := json[position];
      assert json[position..][0] == current && json[position..][1..] == json[position + 1..];
      if escaped {
        result := result + [current];
        escaped := false;
      } else if current == '\\' {
        escaped := true;
      } else if current == '"' {
        break;
      } else {
        result := result + [current];
      }
      position := position + 1;
    }
  }
}
