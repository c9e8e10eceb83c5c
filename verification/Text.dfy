/** The text operations the service takes from its language and libraries, on Unicode scalar values. */
module Text {

  /** Rust's `char::is_whitespace`: the Unicode White_Space property. */
  predicate IsWhitespace(c: char) {
    var n := c as int;
    || 0x9 <= n <= 0xD || n == 0x20 || n == 0x85 || n == 0xA0 || n == 0x1680
    || 0x2000 <= n <= 0x200A || n == 0x2028 || n == 0x2029 || n == 0x202F || n == 0x205F || n == 0x3000
  }

  /** Rust's `char::is_control`: general category Cc. */
  predicate IsControl(c: char) {
    c as int < 0x20 || 0x7F <= c as int <= 0x9F
  }

  /** Number of bytes of one scalar value in UTF-8, the unit of `str::len`. */
  function CharBytes(c: char): nat {
    if c as int < 0x80 then 1 else if c as int < 0x800 then 2 else if c as int < 0x10000 then 3 else 4
  }

  function ByteLength(s: string): (n: nat)
    ensures |s| <= n
  {
    if s == "" then 0 else ByteLength(s[..|s| - 1]) + CharBytes(s[|s| - 1])
  }

  type Byte = n: nat | n < 256

  /** UTF-8 (section 3 of RFC 3629). */
  function Utf8Char(c: char): seq<Byte> {
    var n := c as int;
    if n < 0x80 then [n]
    else if n < 0x800 then [0xC0 + n / 64, 0x80 + n % 64]
    else if n < 0x10000 then [0xE0 + n / 4096, 0x80 + n / 64 % 64, 0x80 + n % 64]
    else [0xF0 + n / 262144, 0x80 + n / 4096 % 64, 0x80 + n / 64 % 64, 0x80 + n % 64]
  }

  function Utf8(s: string): seq<Byte> {
    if s == "" then [] else Utf8(s[..|s| - 1]) + Utf8Char(s[|s| - 1])
  }

  /** The length in bytes is that of the encoding. */
  lemma {:induction false} ByteLengthIsUtf8(s: string)
    ensures ByteLength(s) == |Utf8(s)|
    decreases |s|
  {
    if s != "" {
      ByteLengthIsUtf8(s[..|s| - 1]);
    }
  }

  /** What a header value accepts of one byte: tabs, and everything from 32 on except 127. */
  predicate HeaderByte(b: Byte) {
    b == 9 || (b >= 32 && b != 127)
  }

  predicate HeaderChar(c: char) {
    c == '\t' || (c as int >= 32 && c as int != 127)
  }

  /** `HeaderValue::from_str` on text: tabs, and everything from the space on except DEL. */
  predicate HeaderValueAccepts(s: string) {
    forall c | c in s :: HeaderChar(c)
  }

  /** The bytes of a non-ASCII scalar value are all at least 128, so the test can be made per scalar value. */
  lemma {:induction false} HeaderValueBytes(s: string)
    ensures HeaderValueAccepts(s) <==> forall b | b in Utf8(s) :: HeaderByte(b)
    decreases |s|
  {
    hide HeaderChar, HeaderByte, Utf8Char;
    if s != "" {
      var init, last := s[..|s| - 1], s[|s| - 1];
      HeaderValueBytes(init);
      HeaderCharBytes(last);
      assert s == init + [last];
      assert forall c :: c in s <==> c in init || c == last;
      assert forall b :: b in Utf8(s) <==> b in Utf8(init) || b in Utf8Char(last);
    }
  }

  lemma HeaderCharBytes(c: char)
    ensures HeaderChar(c) <==> forall b | b in Utf8Char(c) :: HeaderByte(b)
  {
    if c as int < 0x80 {
      var b: Byte := c as int;
      assert b in Utf8Char(c) && forall x | x in Utf8Char(c) :: x == b;
      assert HeaderByte(b) <==> HeaderChar(c);
    }
  }

  /** `HeaderValue::to_str` succeeds on tabs and visible ASCII only. */
  predicate HeaderTextReadable(s: string) {
    forall c | c in s :: c == '\t' || 32 <= c as int < 127
  }

  function TrimStart(s: string): string {
    if s != "" && IsWhitespace(s[0]) then TrimStart(s[1..]) else s
  }

  function TrimEnd(s: string): string {
    if s != "" && IsWhitespace(s[|s| - 1]) then TrimEnd(s[..|s| - 1]) else s
  }

  function Trim(s: string): string {
    TrimEnd(TrimStart(s))
  }

  /** No whitespace at either end. */
  predicate Trimmed(s: string) {
    s == "" || (!IsWhitespace(s[0]) && !IsWhitespace(s[|s| - 1]))
  }

  predicate Blank(s: string) {
    forall c | c in s :: IsWhitespace(c)
  }

  lemma {:induction false} TrimStartBlank(pre: string, s: string)
    requires Blank(pre) && (s == "" || !IsWhitespace(s[0]))
    ensures TrimStart(pre + s) == s
    decreases |pre|
  {
    hide IsWhitespace;
    if pre == "" {
      assert pre + s == s;
    } else {
      assert (pre + s)[1..] == pre[1..] + s;
      TrimStartBlank(pre[1..], s);
    }
  }

  lemma {:induction false} TrimEndBlank(s: string, post: string)
    requires Blank(post) && (s == "" || !IsWhitespace(s[|s| - 1]))
    ensures TrimEnd(s + post) == s
    decreases |post|
  {
    hide IsWhitespace;
    if post == "" {
      assert s + post == s;
    } else {
      var init := post[..|post| - 1];
      assert (s + post)[..|s + post| - 1] == s + init;
      assert (s + post)[|s + post| - 1] == post[|post| - 1];
      TrimEndBlank(s, init);
    }
  }

  /** Trimming takes off whitespace at both ends, all of it and nothing else. */
  lemma TrimPadded(pre: string, s: string, post: string)
    requires Blank(pre) && Blank(post) && s != "" && Trimmed(s)
    ensures Trim(pre + s + post) == s
  {
    hide IsWhitespace, TrimStart, TrimEnd;
    assert pre + s + post == pre + (s + post);
    TrimStartBlank(pre, s + post);
    TrimEndBlank(s, post);
  }

  lemma TrimBlank(s: string)
    requires Blank(s)
    ensures Trim(s) == ""
  {
    TrimStartBlank(s, "");
    assert s + "" == s;
  }

  /** Every text that is not all whitespace is a trimmed text padded with whitespace. */
  lemma {:induction false} Padding(s: string) returns (pre: string, body: string, post: string)
    ensures s == pre + body + post && Blank(pre) && Blank(post) && Trimmed(body)
    ensures body == "" <==> Blank(s)
    decreases |s|
  {
    if Blank(s) {
      pre, body, post := s, "", "";
    } else if IsWhitespace(s[0]) {
      pre, body, post := Padding(s[1..]);
      assert s == [s[0]] + pre + body + post;
      pre := [s[0]] + pre;
    } else if IsWhitespace(s[|s| - 1]) {
      var init, last := s[..|s| - 1], s[|s| - 1];
      pre, body, post := Padding(init);
      assert s == pre + body + (post + [last]);
      assert init[0] == s[0];
      post := post + [last];
    } else {
      pre, body, post := "", s, "";
    }
  }

  /** Trimming leaves a contiguous part of the text with no whitespace at either end. */
  lemma TrimShape(s: string)
    ensures Trimmed(Trim(s))
    ensures forall c | c in Trim(s) :: c in s
  {
    hide IsWhitespace, Trim;
    if Blank(s) {
      TrimBlank(s);
    } else {
      var pre, body, post := Padding(s);
      TrimPadded(pre, body, post);
    }
  }

  lemma TrimIdempotent(s: string)
    requires Trimmed(s)
    ensures Trim(s) == s
  {
    assert s != "" ==> TrimStart(s) == s;
  }

  /** `str::split` on one character: always at least one field. */
  function Split(s: string, sep: char): (fields: seq<string>)
    ensures |fields| >= 1
  {
    if s == "" then [""]
    else
      var fields := Split(s[..|s| - 1], sep);
      if s[|s| - 1] == sep then fields + [""]
      else fields[..|fields| - 1] + [fields[|fields| - 1] + [s[|s| - 1]]]
  }

  function Join(fields: seq<string>, sep: char): string
    requires fields != []
  {
    if |fields| == 1 then fields[0]
    else Join(fields[..|fields| - 1], sep) + [sep] + fields[|fields| - 1]
  }

  lemma {:induction false} JoinCons(field: string, rest: seq<string>, sep: char)
    requires rest != []
    ensures Join([field] + rest, sep) == field + [sep] + Join(rest, sep)
    decreases |rest|
  {
    var all := [field] + rest;
    var init, last := rest[..|rest| - 1], rest[|rest| - 1];
    assert all[..|all| - 1] == [field] + init && all[|all| - 1] == last;
    if init == [] {
      assert [field] + init == [field];
    } else {
      JoinCons(field, init, sep);
    }
  }

  /** How one more character changes the fields. */
  function Push(fields: seq<string>, c: char, sep: char): seq<string>
    requires fields != []
  {
    if c == sep then fields + [""] else fields[..|fields| - 1] + [fields[|fields| - 1] + [c]]
  }

  lemma SplitPush(s: string, c: char, sep: char)
    ensures Split(s + [c], sep) == Push(Split(s, sep), c, sep)
  {
    assert (s + [c])[..|s|] == s;
  }

  lemma SplitNothing(sep: char)
    ensures Split("", sep) == [""]
  {
  }

  lemma {:induction false} SplitFieldsHaveNoSeparator(s: string, sep: char)
    ensures forall f | f in Split(s, sep) :: sep !in f
    decreases |s|
  {
    hide Split;
    if s == "" {
      SplitNothing(sep);
    } else {
      var init, last := s[..|s| - 1], s[|s| - 1];
      SplitFieldsHaveNoSeparator(init, sep);
      SplitPush(init, last, sep);
      assert s == init + [last];
    }
  }

  lemma {:induction false} SplitPlain(field: string, sep: char)
    requires sep !in field
    ensures Split(field, sep) == [field]
    decreases |field|
  {
    hide Split;
    if field == "" {
      SplitNothing(sep);
    } else {
      var init, last := field[..|field| - 1], field[|field| - 1];
      SplitPlain(init, sep);
      SplitPush(init, last, sep);
      assert field == init + [last];
    }
  }

  /** A separator divides the fields. */
  lemma {:induction false} SplitAppend(a: string, b: string, sep: char)
    ensures Split(a + [sep] + b, sep) == Split(a, sep) + Split(b, sep)
    decreases |b|
  {
    hide Split;
    var head := a + [sep];
    if b == "" {
      assert head + b == head;
      SplitPush(a, sep, sep);
      SplitNothing(sep);
    } else {
      var init, last := b[..|b| - 1], b[|b| - 1];
      SplitAppend(a, init, sep);
      SplitPush(head + init, last, sep);
      SplitPush(init, last, sep);
      assert b == init + [last] && head + b == head + init + [last];
      PushBehind(Split(a, sep), Split(init, sep), last, sep);
    }
  }

  lemma PushBehind(front: seq<string>, fields: seq<string>, c: char, sep: char)
    requires fields != []
    ensures Push(front + fields, c, sep) == front + Push(fields, c, sep)
  {
    var all := front + fields;
    assert all[..|all| - 1] == front + fields[..|fields| - 1];
  }

  lemma SplitAppendField(s: string, field: string, sep: char)
    requires sep !in field
    ensures Split(s + [sep] + field, sep) == Split(s, sep) + [field]
  {
    hide Split;
    SplitAppend(s, field, sep);
    SplitPlain(field, sep);
  }

  /** Splitting what was joined gives the fields back, when no field holds the separator. */
  lemma {:induction false} SplitJoin(fields: seq<string>, sep: char)
    requires fields != []
    requires forall f | f in fields :: sep !in f
    ensures Split(Join(fields, sep), sep) == fields
    decreases |fields|
  {
    hide Split;
    var init, last := fields[..|fields| - 1], fields[|fields| - 1];
    assert last in fields && fields == init + [last];
    if init == [] {
      SplitPlain(last, sep);
    } else {
      forall f | f in init ensures sep !in f {
        assert f in fields;
      }
      SplitJoin(init, sep);
      SplitAppendField(Join(init, sep), last, sep);
    }
  }
}
