/** The slice of JavaScript string and array semantics that the QR-payload
    parser relies on: `x || ''` on a possibly-null string, `String.split(':')`,
    `Array.shift()` and `Array.join(':')`. A JavaScript string is a sequence of
    characters here; `null` and `undefined` are both `None`. */
module JsString {

  datatype Option<+T> = None | Some(value: T)

  /** `data || ''`: a missing value (null or undefined) becomes the empty string. */
  function OrEmpty(data: Option<string>): (s: string)
    ensures s == "" <==> data.None? || data.value == ""
    ensures s != "" ==> data == Some(s)
  {
    match data
    case None => ""
    case Some(s) => s
  }

  /** JavaScript truthiness of a value that is a string or undefined. */
  predicate Truthy(v: Option<string>)
  {
    v.Some? && v.value != ""
  }

  /** Number of `:` characters in `s`. */
  function ColonCount(s: string): nat
  {
    if s == [] then 0
    else (if s[0] == ':' then 1 else 0) + ColonCount(s[1..])
  }

  /** `s` holds no `:`, so it cannot span a separator. */
  predicate ColonFree(s: string)
  {
    ColonCount(s) == 0
  }

  /** `s.split(':')`: the maximal colon-free pieces between separators, so
      `"".split(':')` is `[""]` and `"a:".split(':')` is `["a", ""]`. */
  function Split(s: string): (parts: seq<string>)
    ensures |parts| == ColonCount(s) + 1
    ensures forall i :: 0 <= i < |parts| ==> ColonFree(parts[i])
  {
    if s == [] then [""]
    else if s[0] == ':' then [""] + Split(s[1..])
    else
      var rest := Split(s[1..]);
      [[s[0]] + rest[0]] + rest[1..]
  }

  /** `parts.join(':')`: an empty array joins to the empty string. */
  function Join(parts: seq<string>): string
  {
    if |parts| == 0 then ""
    else if |parts| == 1 then parts[0]
    else parts[0] + ":" + Join(parts[1..])
  }

  /** `a.shift()`: the first element (undefined on an empty array) and what is left. */
  function Shift(a: seq<string>): (r: (Option<string>, seq<string>))
    ensures r.0.None? <==> a == []
    ensures r.0.None? ==> r.1 == []
    ensures r.0.Some? ==> [r.0.value] + r.1 == a
  {
    if a == [] then (None, []) else (Some(a[0]), a[1..])
  }

  lemma {:induction false} ColonCountConcat(a: string, b: string)
    ensures ColonCount(a + b) == ColonCount(a) + ColonCount(b)
  {
    if a == [] {
      assert a + b == b;
    } else {
      assert (a + b)[0] == a[0];
      assert (a + b)[1..] == a[1..] + b;
      ColonCountConcat(a[1..], b);
    }
  }

  /** Joining the pieces of a split with the same separator gives back the string. */
  lemma {:induction false} JoinSplit(s: string)
    ensures Join(Split(s)) == s
  {
    if s != [] {
      var rest := Split(s[1..]);
      JoinSplit(s[1..]);
      if s[0] == ':' {
        assert Split(s) == [""] + rest;
        JoinAfterEmpty(rest);
      } else {
        assert Split(s) == [[s[0]] + rest[0]] + rest[1..];
        JoinExtendFirst(s[0], rest);
      }
      assert s == [s[0]] + s[1..];
    }
  }

  lemma {:induction false} JoinAfterEmpty(parts: seq<string>)
    requires |parts| >= 1
    ensures Join([""] + parts) == ":" + Join(parts)
  {
    assert ([""] + parts)[1..] == parts;
  }

  lemma {:induction false} JoinExtendFirst(c: char, parts: seq<string>)
    requires |parts| >= 1
    ensures Join([[c] + parts[0]] + parts[1..]) == [c] + Join(parts)
  {
    var extended := [[c] + parts[0]] + parts[1..];
    if |parts| == 1 {
      assert extended == [[c] + parts[0]];
    } else {
      assert extended[1..] == parts[1..];
      var tail := Join(parts[1..]);
      assert Join(extended) == ([c] + parts[0]) + ":" + tail;
      assert Join(parts) == parts[0] + ":" + tail;
    }
  }

  /** A colon-free leading field followed by a separator splits off as one piece. */
  lemma {:induction false} SplitAfterField(field: string, tail: string)
    requires ColonFree(field)
    ensures Split(field + ":" + tail) == [field] + Split(tail)
  {
    var s := field + ":" + tail;
    if field == [] {
      assert s == [':'] + tail;
      assert s[1..] == tail;
    } else {
      assert s[0] == field[0];
      assert s[1..] == field[1..] + ":" + tail;
      assert field[0] != ':';
      SplitAfterField(field[1..], tail);
      var rest := Split(s[1..]);
      assert rest[0] == field[1..] && rest[1..] == Split(tail);
      assert Split(s) == [[field[0]] + rest[0]] + rest[1..];
      assert [field[0]] + field[1..] == field;
    }
  }

  /** The colons of `a:b:c` are the two separators and those inside the fields. */
  lemma {:induction false} ColonCountFields(a: string, b: string, c: string)
    ensures ColonCount(a + ":" + b + ":" + c) == ColonCount(a) + ColonCount(b) + ColonCount(c) + 2
  {
    assert ColonCount(":") == 1 by {
      assert ":"[1..] == "";
    }
    ColonCountConcat(a, ":");
    ColonCountConcat(a + ":", b);
    ColonCountConcat(a + ":" + b, ":");
    ColonCountConcat(a + ":" + b + ":", c);
  }

  /** Counting colons agrees with looking for one. */
  lemma {:induction false} ColonFreeMeansNoColon(s: string)
    ensures ColonFree(s) <==> ':' !in s
  {
    if s != [] {
      ColonFreeMeansNoColon(s[1..]);
      assert s == [s[0]] + s[1..];
    }
  }
}
