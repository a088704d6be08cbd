/** The string helpers the components share. */
module Text {
  /** The characters Go's `unicode.IsSpace` accepts. */
  predicate IsSpace(c: char) {
    || c == '\t' || c == '\n' || c == '\U{0B}' || c == '\U{0C}' || c == '\r' || c == ' '
    || c == '\U{85}' || c == '\U{A0}' || c == '\U{1680}' || '\U{2000}' <= c <= '\U{200A}'
    || c == '\U{2028}' || c == '\U{2029}' || c == '\U{202F}' || c == '\U{205F}' || c == '\U{3000}'
  }

  function TrimLeft(s: string): (r: string)
    ensures r != [] ==> !IsSpace(r[0])
    ensures |r| <= |s| && r == s[|s| - |r|..]
    ensures forall i :: 0 <= i < |s| - |r| ==> IsSpace(s[i])
  {
    if s != [] && IsSpace(s[0]) then TrimLeft(s[1..]) else s
  }

  function TrimRight(s: string): (r: string)
    ensures r != [] ==> !IsSpace(r[|r| - 1])
    ensures |r| <= |s| && r == s[..|r|]
    ensures forall i :: |r| <= i < |s| ==> IsSpace(s[i])
  {
    if s != [] && IsSpace(s[|s| - 1]) then TrimRight(s[..|s| - 1]) else s
  }

  /** `strings.TrimSpace`. */
  function TrimSpace(s: string): (r: string)
    ensures r != [] ==> !IsSpace(r[0]) && !IsSpace(r[|r| - 1])
  {
    TrimRight(TrimLeft(s))
  }

  /** A string without outer space is left alone, so trimming twice is trimming once. */
  lemma TrimFixed(s: string)
    requires s != [] ==> !IsSpace(s[0]) && !IsSpace(s[|s| - 1])
    ensures TrimSpace(s) == s
  {
  }

  function Upper(c: char): char {
    if 'a' <= c <= 'z' then (c as int - 'a' as int + 'A' as int) as char else c
  }

  /** `strings.ToUpper` on ASCII letters. */
  function ToUpper(s: string): (r: string)
    ensures |r| == |s| && forall i :: 0 <= i < |s| ==> r[i] == Upper(s[i])
  {
    if s == [] then [] else [Upper(s[0])] + ToUpper(s[1..])
  }

  lemma UpperFixed(s: string)
    ensures ToUpper(ToUpper(s)) == ToUpper(s)
  {
    assert forall c :: Upper(Upper(c)) == Upper(c);
  }

  /** Trimming and upper-casing twice is doing it once. */
  lemma {:induction false} TrimUpperFixed(s: string)
    ensures
      var t := ToUpper(TrimSpace(s));
      TrimSpace(t) == t && ToUpper(t) == t
  {
    hide TrimSpace, ToUpper;
    assert forall c :: !IsSpace(c) ==> !IsSpace(Upper(c));
    UpperFixed(TrimSpace(s));
    TrimFixed(ToUpper(TrimSpace(s)));
  }

  /** `strings.Split` on one character. */
  function Split(s: string, sep: char): (parts: seq<string>)
    ensures |parts| >= 1
    ensures forall p :: p in parts ==> sep !in p
  {
    if s == [] then [""]
    else
      var rest := Split(s[1..], sep);
      assert sep !in rest[0] by { assert rest[0] in rest; }
      if s[0] == sep then [""] + rest else [[s[0]] + rest[0]] + rest[1..]
  }

  lemma {:induction false} SplitNone(s: string, sep: char)
    requires sep !in s
    ensures Split(s, sep) == [s]
  {
    if s != [] {
      SplitNone(s[1..], sep);
      assert [s[0]] + s[1..] == s;
    }
  }

  lemma {:induction false} SplitFirst(s: string, sep: char, rest: string)
    requires sep !in s
    ensures Split(s + [sep] + rest, sep) == [s] + Split(rest, sep)
  {
    var all := s + [sep] + rest;
    if s == [] {
      assert all[0] == sep && all[1..] == rest;
    } else {
      assert all[1..] == s[1..] + [sep] + rest;
      SplitFirst(s[1..], sep, rest);
      assert ([s[1..]] + Split(rest, sep))[1..] == Split(rest, sep);
      assert [s[0]] + s[1..] == s;
    }
  }

  function Join(parts: seq<string>, sep: char): string {
    if parts == [] then "" else if |parts| == 1 then parts[0] else parts[0] + [sep] + Join(parts[1..], sep)
  }

  /** Splitting and joining undo each other. */
  lemma {:induction false} JoinSplit(s: string, sep: char)
    ensures Join(Split(s, sep), sep) == s
  {
    if s != [] {
      JoinSplit(s[1..], sep);
      JoinGrown(Split(s[1..], sep), s[0], sep);
      assert [s[0]] + s[1..] == s;
    }
  }

  lemma JoinGrown(parts: seq<string>, c: char, sep: char)
    requires parts != []
    ensures Join([""] + parts, sep) == [sep] + Join(parts, sep)
    ensures Join([[c] + parts[0]] + parts[1..], sep) == [c] + Join(parts, sep)
  {
    assert ([""] + parts)[1..] == parts;
    var grown := [[c] + parts[0]] + parts[1..];
    assert grown[1..] == parts[1..];
    assert [c] + parts[0] + [sep] + Join(parts[1..], sep) == [c] + (parts[0] + [sep] + Join(parts[1..], sep));
  }

  /** A text without the separator can be told from what follows it. */
  lemma {:induction false} FirstField(a: string, b: string, a': string, b': string, sep: char)
    requires sep !in a && sep !in a' && a + [sep] + b == a' + [sep] + b'
    ensures a == a' && b == b'
  {
    var s, t := a + [sep] + b, a' + [sep] + b';
    forall i | 0 <= i < |a| ensures s[i] != sep {
      assert a[i] in a;
    }
    forall i | 0 <= i < |a'| ensures t[i] != sep {
      assert a'[i] in a';
    }
    assert s[|a|] == sep && t[|a'|] == sep;
    assert a == s[..|a|] && a' == t[..|a'|];
    assert b == s[|a| + 1..] && b' == t[|a'| + 1..];
  }

  // ----------------------------------------------------- fields that end in a NUL

  const NUL := '\0'

  function Nuls(s: string): nat {
    if s == "" then 0 else (if s[0] == NUL then 1 else 0) + Nuls(s[1..])
  }

  lemma {:induction false} NulsConcat(a: string, b: string)
    ensures Nuls(a + b) == Nuls(a) + Nuls(b)
  {
    if a == "" {
      assert a + b == b;
    } else {
      assert (a + b)[0] == a[0] && (a + b)[1..] == a[1..] + b;
      NulsConcat(a[1..], b);
    }
  }

  lemma {:induction false} NoNuls(s: string)
    ensures Nuls(s) == 0 <==> NUL !in s
  {
    if s != "" {
      NoNuls(s[1..]);
    }
  }

  lemma {:induction false} NulsField(field: string, rest: string)
    ensures Nuls(field + [NUL] + rest) == Nuls(field) + 1 + Nuls(rest)
  {
    NulsConcat(field + [NUL], rest);
    NulsConcat(field, [NUL]);
    assert [NUL][1..] == "";
  }

  /** A NUL between two fields may as well stand in either of them. */
  lemma MoveBoundary(a: string, b: string, c: string, rest: string)
    ensures (a + [NUL] + b) + [NUL] + (c + [NUL] + rest) == a + [NUL] + ((b + [NUL] + c) + [NUL] + rest)
  {
  }

  lemma {:induction false} CutAtNul(s: string) returns (u: string, v: string)
    requires NUL in s
    ensures s == u + [NUL] + v && NUL !in u
  {
    if s[0] == NUL {
      u, v := "", s[1..];
      assert "" + [NUL] + v == s;
    } else {
      u, v := CutAtNul(s[1..]);
      u := [s[0]] + u;
    }
  }
}
