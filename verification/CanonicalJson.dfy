// The canonical operation as JSON: it can be read back, so it names its kind,
// task and key.

module CanonicalJson {
  import opened Results
  import opened ServiceSpec

  // ---- reading JSON strings -------------------------------------------------------------------

  datatype Character = Character(c: char, width: nat)
  datatype Reading = Reading(text: string, rest: string)

  function HexValue(c: char): Option<nat> {
    if '0' <= c <= '9' then Some((c - '0') as nat)
    else if 'a' <= c <= 'f' then Some((c - 'a') as nat + 10)
    else if 'A' <= c <= 'F' then Some((c - 'A') as nat + 10)
    else None
  }

  // The four hexadecimal digits at position i.
  function ReadHex4(s: string, i: nat): Option<nat> {
    if |s| < i + 4 then None
    else
      var a, b, c, d := HexValue(s[i]), HexValue(s[i + 1]), HexValue(s[i + 2]), HexValue(s[i + 3]);
      if a.None? || b.None? || c.None? || d.None? then None
      else Some(4096 * a.value + 256 * b.value + 16 * c.value + d.value)
  }

  // A \u escape, or the two of a surrogate pair.
  function ReadUnicode(s: string): Option<Character> {
    match ReadHex4(s, 2)
    case None => None
    case Some(n) =>
      if 0xDC00 <= n < 0xE000 || n >= 0x1_0000 then None
      else if n < 0xD800 || 0xE000 <= n then Some(Character(n as char, 6))
      else
        match ReadHex4(s, 8)
        case None => None
        case Some(low) =>
          if s[6] == '\\' && s[7] == 'u' && 0xDC00 <= low < 0xE000
          then Some(Character((0x1_0000 + (n - 0xD800) * 0x400 + (low - 0xDC00)) as char, 12))
          else None
  }

  // The first character of the inside of a JSON string (RFC 8259, section 7).
  function ReadCharacter(s: string): (r: Option<Character>)
    ensures r.Some? ==> 1 <= r.value.width <= |s|
  {
    if s == "" || s[0] == '\"' || s[0] < ' ' then None
    else if s[0] != '\\' then Some(Character(s[0], 1))
    else if |s| == 1 then None
    else
      match s[1]
      case '\"' => Some(Character('\"', 2))
      case '\\' => Some(Character('\\', 2))
      case '/' => Some(Character('/', 2))
      case 'n' => Some(Character('\n', 2))
      case 'r' => Some(Character('\r', 2))
      case 't' => Some(Character('\t', 2))
      case 'b' => Some(Character(8 as char, 2))
      case 'f' => Some(Character(12 as char, 2))
      case 'u' => ReadUnicode(s)
      case _ => None
  }

  // What a JSON string holds, from behind its opening quote, and what follows it.
  function ReadString(s: string): Option<Reading>
    decreases |s|
  {
    if s != "" && s[0] == '\"' then Some(Reading("", s[1..]))
    else
      match ReadCharacter(s)
      case None => None
      case Some(first) =>
        match ReadString(s[first.width..])
        case None => None
        case Some(more) => Some(Reading([first.c] + more.text, more.rest))
  }

  // ---- what was written is read back ---------------------------------------------------------------

  lemma DigitsOf(n: nat)
    requires n < 0x1_0000
    ensures 4096 * (n / 4096) + 256 * (n / 256 % 16) + 16 * (n / 16 % 16) + n % 16 == n
  {
    assert n / 256 == (n / 16) / 16 && n / 4096 == (n / 256) / 16;
  }

  lemma Hex4RoundTrip(n: nat, before: string, after: string)
    requires n < 0x1_0000
    ensures ReadHex4(before + Hex4(n) + after, |before|) == Some(n)
  {
    hide HexDigit, HexValue;
    var digits, i := Hex4(n), |before|;
    var s := before + digits + after;
    assert s[i] == digits[0] && s[i + 1] == digits[1] && s[i + 2] == digits[2] && s[i + 3] == digits[3];
    HexDigitRoundTrip(n / 4096);
    HexDigitRoundTrip(n / 256 % 16);
    HexDigitRoundTrip(n / 16 % 16);
    HexDigitRoundTrip(n % 16);
    DigitsOf(n);
  }

  lemma HexDigitRoundTrip(n: nat)
    requires n < 16
    ensures HexValue(HexDigit(n)) == Some(n)
  {
  }

  lemma CharacterRoundTrip(c: char, after: string)
    ensures ReadCharacter(EscapeChar(c) + after) == Some(Character(c, |EscapeChar(c)|))
  {
    hide ReadUnicode, HexDigit;
    var n := c as int;
    if |EscapeChar(c)| == 6 {
      OneUnit(c, after);
    } else if |EscapeChar(c)| == 12 {
      TwoUnits(c, after);
    }
  }

  lemma OneUnit(c: char, after: string)
    requires (c as int) < 0x1_0000
    ensures ReadUnicode("\\u" + Hex4(c as int) + after) == Some(Character(c, 6))
  {
    hide ReadHex4, HexDigit;
    Hex4RoundTrip(c as int, "\\u", after);
  }

  lemma TwoUnits(c: char, after: string)
    requires (c as int) >= 0x1_0000
    ensures var high, low := 0xD800 + (c as int - 0x1_0000) / 0x400, 0xDC00 + (c as int - 0x1_0000) % 0x400;
      ReadUnicode("\\u" + Hex4(high) + "\\u" + Hex4(low) + after) == Some(Character(c, 12))
  {
    hide ReadHex4, HexDigit;
    var high, low := 0xD800 + (c as int - 0x1_0000) / 0x400, 0xDC00 + (c as int - 0x1_0000) % 0x400;
    var first := "\\u" + Hex4(high);
    var s := first + "\\u" + Hex4(low) + after;
    Hex4RoundTrip(high, "\\u", "\\u" + Hex4(low) + after);
    assert s == "\\u" + Hex4(high) + ("\\u" + Hex4(low) + after);
    Hex4RoundTrip(low, first + "\\u", after);
    assert |first| == 6 && s[6] == '\\' && s[7] == 'u';
  }

  lemma {:induction false} StringRoundTrip(text: string, rest: string)
    ensures ReadString(Escaped(text) + "\"" + rest) == Some(Reading(text, rest))
  {
    hide EscapeChar, ReadCharacter;
    var s := Escaped(text) + "\"" + rest;
    if text == "" {
      assert s == "\"" + rest;
    } else {
      var after := Escaped(text[1..]) + "\"" + rest;
      assert s == EscapeChar(text[0]) + after;
      CharacterRoundTrip(text[0], after);
      NoBareQuote(s);
      StringRoundTrip(text[1..], rest);
      assert s[|EscapeChar(text[0])|..] == after;
      assert [text[0]] + text[1..] == text;
    }
  }

  lemma NoBareQuote(s: string)
    requires ReadCharacter(s).Some?
    ensures s != "" && s[0] != '\"'
  {
  }

  // ---- the operation names its kind, task and key -----------------------------------------------------

  // A string that starts with a quoted text determines the text and the rest.
  lemma QuotedIsPrefixFree(a: string, x: string, b: string, y: string)
    requires Quoted(a) + x == Quoted(b) + y
    ensures a == b && x == y
  {
    hide Escaped, ReadString;
    StringRoundTrip(a, x);
    StringRoundTrip(b, y);
    QuotedInside(a, x);
    QuotedInside(b, y);
  }

  lemma QuotedInside(text: string, rest: string)
    ensures (Quoted(text) + rest)[1..] == Escaped(text) + "\"" + rest
  {
    hide Escaped;
    assert Quoted(text) + rest == "\"" + (Escaped(text) + "\"" + rest);
  }

  lemma DropPrefix(prefix: string, x: string, y: string)
    requires prefix + x == prefix + y
    ensures x == y
  {
    assert x == (prefix + x)[|prefix|..];
    assert y == (prefix + y)[|prefix|..];
  }

  // Two calls share an operation only when they agree on kind, task and key.
  lemma OperationIsInjective(kind: string, taskId: string, cycleKey: string,
                             kind2: string, taskId2: string, cycleKey2: string)
    requires CanonicalOperation(kind, taskId, cycleKey) == CanonicalOperation(kind2, taskId2, cycleKey2)
    ensures kind == kind2 && taskId == taskId2 && cycleKey == cycleKey2
  {
    var keyName, kindName, taskName := "{\"cycle_key\":", ",\"kind\":", ",\"task_id\":";
    var tail, tail2 := Quoted(taskId) + "}", Quoted(taskId2) + "}";
    var middle, middle2 := Quoted(kind) + (taskName + tail), Quoted(kind2) + (taskName + tail2);
    OperationAsPieces(kind, taskId, cycleKey);
    OperationAsPieces(kind2, taskId2, cycleKey2);
    DropPrefix(keyName, Quoted(cycleKey) + (kindName + middle), Quoted(cycleKey2) + (kindName + middle2));
    QuotedIsPrefixFree(cycleKey, kindName + middle, cycleKey2, kindName + middle2);
    DropPrefix(kindName, middle, middle2);
    QuotedIsPrefixFree(kind, taskName + tail, kind2, taskName + tail2);
    DropPrefix(taskName, tail, tail2);
    QuotedIsPrefixFree(taskId, "}", taskId2, "}");
  }

  lemma OperationAsPieces(kind: string, taskId: string, cycleKey: string)
    ensures CanonicalOperation(kind, taskId, cycleKey)
         == "{\"cycle_key\":" + (Quoted(cycleKey) + (",\"kind\":" + (Quoted(kind) + (",\"task_id\":" + (Quoted(taskId) + "}")))))
  {
    hide Quoted;
    var a, b, c := "{\"cycle_key\":", ",\"kind\":", ",\"task_id\":";
    Regroup(a, Quoted(cycleKey), b, Quoted(kind), c, Quoted(taskId), "}");
  }

  lemma Regroup(a: string, k: string, b: string, m: string, c: string, t: string, d: string)
    ensures (a + k + b) + m + (c + t + d) == a + (k + (b + (m + (c + (t + d)))))
  {
  }

  // Characters that JSON writes as they are.
  predicate Plain(s: string) {
    forall i | 0 <= i < |s| :: ' ' <= s[i] <= '~' && s[i] != '\"' && s[i] != '\\'
  }

  lemma {:induction false} PlainIsUnescaped(s: string)
    requires Plain(s)
    ensures Escaped(s) == s
  {
    if s != "" {
      PlainIsUnescaped(s[1..]);
      assert s == [s[0]] + s[1..];
    }
  }

  lemma CanonicalForm(kind: string, taskId: string, cycleKey: string)
    requires Plain(kind) && Plain(taskId) && Plain(cycleKey)
    ensures CanonicalOperation(kind, taskId, cycleKey)
         == ("{\"cycle_key\":" + ("\"" + cycleKey + "\"") + ",\"kind\":") + ("\"" + kind + "\"")
            + (",\"task_id\":" + ("\"" + taskId + "\"") + "}")
  {
    PlainIsUnescaped(kind);
    PlainIsUnescaped(taskId);
    PlainIsUnescaped(cycleKey);
  }
}
