/** Looking policy rules up by prefix, and counting them per subject. */
module PolicyRules {
  import opened Prelude
  import opened Text

  // ------------------------------------------------------------ LIKE patterns

  /** `strings.ReplaceAll`: every occurrence of `target`, left to right, is replaced; what is put in is
      not looked at again. */
  function ReplaceAll(s: string, target: string, text: string): string
    requires target != ""
  {
    if |s| < |target| then s
    else if target <= s then text + ReplaceAll(s[|target|..], target, text)
    else [s[0]] + ReplaceAll(s[1..], target, text)
  }

  const ESCAPE := '\\'

  /** The filter's escaping: backslashes first, then the two wildcards. */
  function EscapeLike(value: string): string {
    var backslashes := ReplaceAll(value, "\\", "\\\\");
    var percents := ReplaceAll(backslashes, "%", "\\%");
    ReplaceAll(percents, "_", "\\_")
  }

  /** `LIKE ... ESCAPE '\'`: an escaped character stands for itself, `%` for any string, `_` for any one
      character. A pattern that ends in a lone escape matches nothing (the database rejects it). */
  predicate Like(s: string, pattern: string)
    decreases |pattern|, |s|
  {
    if pattern == "" then s == ""
    else if pattern[0] == ESCAPE then
      |pattern| >= 2 && s != "" && s[0] == pattern[1] && Like(s[1..], pattern[2..])
    else if pattern[0] == '%' then
      Like(s, pattern[1..]) || (s != "" && Like(s[1..], pattern))
    else s != "" && (pattern[0] == '_' || s[0] == pattern[0]) && Like(s[1..], pattern[1..])
  }

  predicate Special(c: char) {
    c == ESCAPE || c == '%' || c == '_'
  }

  /** Escaping one character at a time. */
  function EscapeEach(s: string): string {
    if s == "" then "" else (if Special(s[0]) then [ESCAPE, s[0]] else [s[0]]) + EscapeEach(s[1..])
  }

  /** Replacing a single character by a text, one character at a time. */
  function Substitute(s: string, c: char, text: string): string {
    if s == "" then "" else (if s[0] == c then text else [s[0]]) + Substitute(s[1..], c, text)
  }

  lemma {:induction false} ReplaceSingle(s: string, c: char, text: string)
    ensures ReplaceAll(s, [c], text) == Substitute(s, c, text)
  {
    if s != "" {
      assert [c] <= s <==> s[0] == c;
      ReplaceSingle(s[1..], c, text);
    }
  }

  lemma {:induction false} SubstituteConcat(a: string, b: string, c: char, text: string)
    ensures Substitute(a + b, c, text) == Substitute(a, c, text) + Substitute(b, c, text)
  {
    if a == "" {
      assert a + b == b;
    } else {
      assert (a + b)[1..] == a[1..] + b;
      SubstituteConcat(a[1..], b, c, text);
    }
  }

  /** One character through the three replacements. */
  lemma {:induction false} EscapeOne(c: char)
    ensures Substitute(Substitute(Substitute([c], '\\', "\\\\"), '%', "\\%"), '_', "\\_")
      == if Special(c) then [ESCAPE, c] else [c]
  {
    SubstituteShort(c, '\\', "\\\\");
    SubstituteShort(c, '%', "\\%");
    SubstituteShort(c, '_', "\\_");
    SubstitutePair('\\', '\\', '%', "\\%");
    SubstitutePair('\\', '\\', '_', "\\_");
    SubstitutePair('\\', '%', '_', "\\_");
  }

  lemma SubstituteShort(x: char, c: char, text: string)
    ensures Substitute([x], c, text) == if x == c then text else [x]
  {
    assert [x][1..] == "";
  }

  lemma SubstitutePair(x: char, y: char, c: char, text: string)
    requires x != c && y != c
    ensures Substitute([x, y], c, text) == [x, y]
  {
    assert [x, y][1..] == [y];
    SubstituteShort(y, c, text);
  }

  /** The three successive replacements escape each character once. */
  lemma {:induction false} EscapeIsEach(s: string)
    ensures EscapeLike(s) == EscapeEach(s)
  {
    hide Substitute, ReplaceAll;
    var a := Substitute(s, '\\', "\\\\");
    var b := Substitute(a, '%', "\\%");
    ReplaceSingle(s, '\\', "\\\\");
    ReplaceSingle(a, '%', "\\%");
    ReplaceSingle(b, '_', "\\_");
    ThreePasses(s);
  }

  lemma {:induction false} ThreePasses(s: string)
    ensures Substitute(Substitute(Substitute(s, '\\', "\\\\"), '%', "\\%"), '_', "\\_") == EscapeEach(s)
  {
    if s != "" {
      var c, rest := [s[0]], s[1..];
      assert s == c + rest;
      SubstituteConcat(c, rest, '\\', "\\\\");
      var c1, rest1 := Substitute(c, '\\', "\\\\"), Substitute(rest, '\\', "\\\\");
      SubstituteConcat(c1, rest1, '%', "\\%");
      SubstituteConcat(Substitute(c1, '%', "\\%"), Substitute(rest1, '%', "\\%"), '_', "\\_");
      EscapeOne(s[0]);
      ThreePasses(rest);
    }
  }

  /** An escaped character matches just itself. */
  lemma {:induction false} LikeEscaped(s: string, c: char, rest: string)
    ensures Like(s, (if Special(c) then [ESCAPE, c] else [c]) + rest) <==> s != "" && s[0] == c && Like(s[1..], rest)
  {
    if Special(c) {
      assert ([ESCAPE, c] + rest)[2..] == rest;
    } else {
      assert ([c] + rest)[1..] == rest;
    }
  }

  /** An escaped text followed by a pattern matches the text followed by what the pattern matches. */
  lemma {:induction false} EscapedMatchesItself(s: string, p: string, pattern: string)
    ensures Like(s, EscapeEach(p) + pattern) <==> p <= s && Like(s[|p|..], pattern)
  {
    hide Like, Special;
    if p == "" {
      assert EscapeEach(p) + pattern == pattern && s[0..] == s;
    } else {
      var rest := EscapeEach(p[1..]) + pattern;
      assert EscapeEach(p) + pattern == (if Special(p[0]) then [ESCAPE, p[0]] else [p[0]]) + rest;
      LikeEscaped(s, p[0], rest);
      if s != "" && s[0] == p[0] {
        EscapedMatchesItself(s[1..], p[1..], pattern);
        assert p == [p[0]] + p[1..] && s == [s[0]] + s[1..];
        if p <= s {
          assert s[1..][|p| - 1..] == s[|p|..];
        }
      }
    }
  }

  lemma {:induction false} PercentMatchesAll(s: string)
    ensures Like(s, "%")
  {
    if s != "" { PercentMatchesAll(s[1..]); }
  }

  /** The prefix filter selects exactly the values that start with the prefix, whatever it contains. */
  lemma {:induction false} PrefixFilterIsPrefix(s: string, prefix: string)
    ensures Like(s, EscapeLike(prefix) + "%") <==> prefix <= s
  {
    EscapeIsEach(prefix);
    EscapedMatchesItself(s, prefix, "%");
    if prefix <= s {
      PercentMatchesAll(s[|prefix|..]);
    }
  }

  // ---------------------------------------------------------- counts per subject

  datatype Rule = Rule(ptype: string, v0: string, v1: string, v2: string, v3: string, v4: string, v5: string)

  function RuleKey(r: Rule): string {
    r.v1 + [NUL] + (r.v2 + [NUL] + (r.v3 + [NUL] + (r.v4 + [NUL] + r.v5)))
  }

  predicate NoNul(r: Rule) {
    NUL !in r.v1 && NUL !in r.v2 && NUL !in r.v3 && NUL !in r.v4 && NUL !in r.v5
  }

  predicate SamePermission(r: Rule, q: Rule) {
    r.v1 == q.v1 && r.v2 == q.v2 && r.v3 == q.v3 && r.v4 == q.v4 && r.v5 == q.v5
  }

  function InnerNuls(r: Rule): nat {
    Nuls(r.v1) + Nuls(r.v2) + Nuls(r.v3) + Nuls(r.v4) + Nuls(r.v5)
  }

  lemma NoInnerNuls(r: Rule)
    ensures NoNul(r) <==> InnerNuls(r) == 0
  {
    hide Nuls;
    NoNuls(r.v1);
    NoNuls(r.v2);
    NoNuls(r.v3);
    NoNuls(r.v4);
    NoNuls(r.v5);
  }

  lemma NulsKey(r: Rule)
    ensures Nuls(RuleKey(r)) == InnerNuls(r) + 4
  {
    hide Nuls;
    NulsField(r.v4, r.v5);
    NulsField(r.v3, r.v4 + [NUL] + r.v5);
    NulsField(r.v2, r.v3 + [NUL] + (r.v4 + [NUL] + r.v5));
    NulsField(r.v1, r.v2 + [NUL] + (r.v3 + [NUL] + (r.v4 + [NUL] + r.v5)));
  }

  lemma KeyNotEmpty(r: Rule)
    ensures RuleKey(r) != ""
  {
  }

  /** A rule without a NUL shares its key exactly with the rules that grant the same thing. */
  lemma {:induction false} KeysTellApart(r: Rule, q: Rule)
    requires NoNul(r)
    ensures RuleKey(r) == RuleKey(q) <==> SamePermission(r, q)
  {
    if RuleKey(r) == RuleKey(q) {
      NulsKey(r);
      NulsKey(q);
      NoInnerNuls(r);
      NoInnerNuls(q);
      FieldsOf(r, q);
    }
  }

  lemma FieldsOf(r: Rule, q: Rule)
    requires NoNul(r) && NoNul(q) && RuleKey(r) == RuleKey(q)
    ensures SamePermission(r, q)
  {
    FirstField(r.v1, r.v2 + [NUL] + (r.v3 + [NUL] + (r.v4 + [NUL] + r.v5)),
      q.v1, q.v2 + [NUL] + (q.v3 + [NUL] + (q.v4 + [NUL] + q.v5)), NUL);
    FirstField(r.v2, r.v3 + [NUL] + (r.v4 + [NUL] + r.v5), q.v2, q.v3 + [NUL] + (q.v4 + [NUL] + q.v5), NUL);
    FirstField(r.v3, r.v4 + [NUL] + r.v5, q.v3, q.v4 + [NUL] + q.v5, NUL);
    FirstField(r.v4, r.v5, q.v4, q.v5, NUL);
  }

  /** A rule with a NUL shares its key with one that grants something else: the NUL moves to another field. */
  lemma {:induction false} RuleDouble(r: Rule) returns (q: Rule)
    requires !NoNul(r)
    ensures RuleKey(q) == RuleKey(r) && !SamePermission(q, r) && q.v0 == r.v0
  {
    if NUL in r.v1 {
      var u, v := CutAtNul(r.v1);
      q := r.(v1 := u, v2 := v + [NUL] + r.v2);
      MoveBoundary(u, v, r.v2, r.v3 + [NUL] + (r.v4 + [NUL] + r.v5));
    } else if NUL in r.v2 {
      var u, v := CutAtNul(r.v2);
      q := r.(v2 := u, v3 := v + [NUL] + r.v3);
      MoveBoundary(u, v, r.v3, r.v4 + [NUL] + r.v5);
    } else if NUL in r.v3 {
      var u, v := CutAtNul(r.v3);
      q := r.(v3 := u, v4 := v + [NUL] + r.v4);
      MoveBoundary(u, v, r.v4, r.v5);
    } else if NUL in r.v4 {
      var u, v := CutAtNul(r.v4);
      q := r.(v4 := u, v5 := v + [NUL] + r.v5);
      assert (u + [NUL] + v) + [NUL] + r.v5 == u + [NUL] + (v + [NUL] + r.v5);
    } else {
      var u, v := CutAtNul(r.v5);
      q := r.(v4 := r.v4 + [NUL] + u, v5 := v);
      assert r.v4 + [NUL] + (u + [NUL] + v) == (r.v4 + [NUL] + u) + [NUL] + v;
    }
  }

  /** Nothing but the same permission has a rule's key exactly when the rule holds no NUL. */
  lemma {:induction false} KeyAloneIff(r: Rule)
    ensures (forall q :: RuleKey(q) == RuleKey(r) ==> SamePermission(q, r)) <==> NoNul(r)
  {
    hide RuleKey, NoNul;
    if NoNul(r) {
      forall q | RuleKey(q) == RuleKey(r) ensures SamePermission(q, r) {
        KeysTellApart(r, q);
      }
    } else {
      var q := RuleDouble(r);
    }
  }

  /** The keys of the rules of one subject; empty keys do not count. */
  ghost function KeysOf(rules: seq<Rule>, key: Rule -> string, v0: string): set<string> {
    set r | r in rules && r.v0 == v0 && key(r) != "" :: key(r)
  }

  lemma KeysStep(rules: seq<Rule>, key: Rule -> string, i: nat, v0: string)
    requires i < |rules|
    ensures KeysOf(rules[..i + 1], key, v0) ==
      if rules[i].v0 == v0 && key(rules[i]) != "" then KeysOf(rules[..i], key, v0) + {key(rules[i])}
      else KeysOf(rules[..i], key, v0)
  {
    assert rules[..i + 1] == rules[..i] + [rules[i]];
  }

  /** `seen` holds the keys per subject and `counts` their numbers. */
  ghost predicate Tracked(rules: seq<Rule>, key: Rule -> string, seen: map<string, set<string>>, counts: map<string, nat>) {
    && (forall v0 :: KeysOf(rules, key, v0) == if v0 in seen then seen[v0] else {})
    && (forall v0 :: v0 in counts <==> v0 in seen && seen[v0] != {})
    && (forall v0 :: v0 in counts ==> counts[v0] == |seen[v0]|)
  }

  lemma TrackedNone(key: Rule -> string)
    ensures Tracked([], key, map[], map[])
  {
  }

  lemma TrackedCounts(rules: seq<Rule>, key: Rule -> string, seen: map<string, set<string>>, counts: map<string, nat>)
    requires Tracked(rules, key, seen, counts)
    ensures forall v0 :: v0 in counts <==> KeysOf(rules, key, v0) != {}
    ensures forall v0 :: v0 in counts ==> counts[v0] == |KeysOf(rules, key, v0)|
  {
    hide KeysOf;
  }

  /** A key that is empty or known changes nothing (but may start the subject's empty set). */
  lemma {:induction false} TrackedSame(rules: seq<Rule>, key: Rule -> string, i: nat, seen: map<string, set<string>>,
    counts: map<string, nat>)
    requires i < |rules| && Tracked(rules[..i], key, seen, counts)
    requires key(rules[i]) == "" || (rules[i].v0 in seen && key(rules[i]) in seen[rules[i].v0])
    ensures Tracked(rules[..i + 1], key, seen, counts)
  {
    hide KeysOf;
    forall v0 ensures KeysOf(rules[..i + 1], key, v0) == KeysOf(rules[..i], key, v0) {
      KeysStep(rules, key, i, v0);
      assert key(rules[i]) in KeysOf(rules[..i], key, v0) ==>
        KeysOf(rules[..i], key, v0) + {key(rules[i])} == KeysOf(rules[..i], key, v0);
    }
  }

  lemma {:induction false} TrackedEmpty(rules: seq<Rule>, key: Rule -> string, seen: map<string, set<string>>,
    counts: map<string, nat>, v0: string)
    requires Tracked(rules, key, seen, counts) && v0 !in seen
    ensures Tracked(rules, key, seen[v0 := {}], counts)
  {
    hide KeysOf;
  }

  lemma {:induction false} TrackedNew(rules: seq<Rule>, key: Rule -> string, i: nat, seen: map<string, set<string>>,
    counts: map<string, nat>)
    requires i < |rules| && Tracked(rules[..i], key, seen, counts)
    requires key(rules[i]) != "" && rules[i].v0 in seen && key(rules[i]) !in seen[rules[i].v0]
    ensures
      var v0, k := rules[i].v0, key(rules[i]);
      var count := if v0 in counts then counts[v0] else 0;
      Tracked(rules[..i + 1], key, seen[v0 := seen[v0] + {k}], counts[v0 := count + 1])
  {
    hide KeysOf;
    forall v0 ensures KeysOf(rules[..i + 1], key, v0) ==
      if rules[i].v0 == v0 then KeysOf(rules[..i], key, v0) + {key(rules[i])} else KeysOf(rules[..i], key, v0)
    {
      KeysStep(rules, key, i, v0);
    }
  }

  /** Counts distinct keys per subject; subjects without one do not appear. */
  method CountKeys(rules: seq<Rule>, key: Rule -> string) returns (counts: map<string, nat>)
    ensures forall v0 :: v0 in counts <==> KeysOf(rules, key, v0) != {}
    ensures forall v0 :: v0 in counts ==> counts[v0] == |KeysOf(rules, key, v0)|
  {
    hide Tracked, KeysOf;
    TrackedNone(key);
    assert rules[..0] == [];
    counts := map[];
    var seen: map<string, set<string>> := map[];
    for i := 0 to |rules|
      invariant Tracked(rules[..i], key, seen, counts)
    {
      var rule := rules[i];
      var k := key(rule);
      if k == "" {
        TrackedSame(rules, key, i, seen, counts);
        continue;
      }
      if rule.v0 !in seen {
        TrackedEmpty(rules[..i], key, seen, counts, rule.v0);
        seen := seen[rule.v0 := {}];
      }
      if k in seen[rule.v0] {
        TrackedSame(rules, key, i, seen, counts);
        continue;
      }
      TrackedNew(rules, key, i, seen, counts);
      seen := seen[rule.v0 := seen[rule.v0] + {k}];
      counts := counts[rule.v0 := (if rule.v0 in counts then counts[rule.v0] else 0) + 1];
    }
    assert rules[..|rules|] == rules;
    TrackedCounts(rules, key, seen, counts);
  }

  method PolicyRuleCountsByV0(rules: seq<Rule>, keyFunc: Option<Rule -> string>) returns (counts: map<string, nat>)
    ensures
      var key := if keyFunc.Some? then keyFunc.value else RuleKey;
      && (forall v0 :: v0 in counts <==> KeysOf(rules, key, v0) != {})
      && (forall v0 :: v0 in counts ==> counts[v0] == |KeysOf(rules, key, v0)|)
  {
    if keyFunc.Some? {
      counts := CountKeys(rules, keyFunc.value);
    } else {
      counts := CountKeys(rules, RuleKey);
    }
  }

  /** The granted permissions themselves, as the five fields a rule key is made of. */
  ghost function PermissionsOf(rules: seq<Rule>, v0: string): set<(string, string, string, string, string)> {
    set r | r in rules && r.v0 == v0 :: (r.v1, r.v2, r.v3, r.v4, r.v5)
  }

  /** With the built-in key, and a NUL in at most one of the subject's permissions, every permission counts once. */
  lemma {:induction false} KeysArePermissions(rules: seq<Rule>, v0: string)
    requires forall r, q :: r in rules && q in rules && r.v0 == v0 == q.v0 && !NoNul(r) && !NoNul(q) ==>
      SamePermission(r, q)
    ensures |KeysOf(rules, RuleKey, v0)| == |PermissionsOf(rules, v0)|
  {
    hide RuleKey, KeysOf, PermissionsOf;
    if rules == [] {
      NoPermissions(v0);
    } else {
      var n := |rules| - 1;
      var r := rules[n];
      var p := (r.v1, r.v2, r.v3, r.v4, r.v5);
      KeysArePermissions(rules[..n], v0);
      KeysStep(rules, RuleKey, n, v0);
      assert rules[..n + 1] == rules;
      KeyNotEmpty(r);
      assert rules == rules[..n] + [r];
      PermissionStep(rules[..n], r, v0);
      if r.v0 == v0 {
        SameMembership(rules[..n], r, v0);
      }
      AddedSize(KeysOf(rules[..n], RuleKey, v0), RuleKey(r));
      AddedSize(PermissionsOf(rules[..n], v0), p);
    }
  }

  lemma AddedSize<T>(s: set<T>, x: T)
    ensures |s + {x}| == if x in s then |s| else |s| + 1
  {
    if x in s {
      assert s + {x} == s;
    }
  }

  lemma NoPermissions(v0: string)
    ensures KeysOf([], RuleKey, v0) == {} && PermissionsOf([], v0) == {}
  {
  }

  lemma PermissionStep(rules: seq<Rule>, r: Rule, v0: string)
    ensures PermissionsOf(rules + [r], v0) ==
      if r.v0 == v0 then PermissionsOf(rules, v0) + {(r.v1, r.v2, r.v3, r.v4, r.v5)} else PermissionsOf(rules, v0)
  {
  }

  lemma {:induction false} SameMembership(rules: seq<Rule>, r: Rule, v0: string)
    requires forall q :: q in rules && q.v0 == v0 && !NoNul(q) && !NoNul(r) ==> SamePermission(q, r)
    ensures RuleKey(r) in KeysOf(rules, RuleKey, v0) <==> (r.v1, r.v2, r.v3, r.v4, r.v5) in PermissionsOf(rules, v0)
  {
    hide RuleKey;
    forall q | q in rules && q.v0 == v0 ensures RuleKey(q) != "" && (RuleKey(r) == RuleKey(q) <==> SamePermission(r, q)) {
      KeyNotEmpty(q);
      if NoNul(r) {
        KeysTellApart(r, q);
      } else if NoNul(q) {
        KeysTellApart(q, r);
      } else {
        KeyOfPermission(r, q);
      }
    }
  }

  lemma KeyOfPermission(r: Rule, q: Rule)
    requires SamePermission(r, q)
    ensures RuleKey(r) == RuleKey(q)
  {
  }
}
