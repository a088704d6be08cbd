/** Merging a configuration file with everything it imports, directly or not. */
module ConfigImports {
  import opened Prelude
  import opened Text

  datatype File = File(imports: seq<string>, leaves: map<string, string>)

  /** Readable files by path, how an import item is resolved against its parent, and the identity a path
      has after resolving links (none when the path cannot be made absolute). */
  datatype FileSystem = FileSystem(
    files: map<string, File>,
    resolve: (string, string) -> string,
    identity: string -> Option<string>)

  datatype ImportError =
    | NoIdentity(chain: seq<string>)
    | Cycle(chain: seq<string>)
    | Unreadable(chain: seq<string>)

  // ------------------------------------------------------------ import chains

  /** Which import of which import: positions in the raw lists, outermost first. */
  type Address = seq<nat>

  /** The configuration being loaded: the entry file and the import list found in it. */
  datatype Entry = Entry(fs: FileSystem, path: string, imports: seq<string>)

  ghost function ImportsOf(e: Entry, chain: seq<string>): seq<string>
    requires chain != []
  {
    var last := chain[|chain| - 1];
    if |chain| == 1 then e.imports else if last in e.fs.files then e.fs.files[last].imports else []
  }

  /** The paths walked to reach an address; none when it leads nowhere or to a blank item. */
  ghost function ChainAt(e: Entry, a: Address): (c: Option<seq<string>>)
    ensures c.Some? ==> |c.value| == |a| + 1
  {
    if a == [] then Some([e.path])
    else
      var outer := ChainAt(e, a[..|a| - 1]);
      if outer.None? then None
      else
        var k, imports := a[|a| - 1], ImportsOf(e, outer.value);
        if k < |imports| && TrimSpace(imports[k]) != "" then
          Some(outer.value + [e.fs.resolve(outer.value[|outer.value| - 1], TrimSpace(imports[k]))])
        else None
  }

  ghost predicate HasFile(e: Entry, a: Address) {
    a != [] && ChainAt(e, a).Some?
  }

  ghost predicate SameIdentity(fs: FileSystem, p: string, q: string) {
    fs.identity(p).Some? && fs.identity(p) == fs.identity(q)
  }

  /** Every import on the chain can be read, and no file is its own ancestor. */
  ghost predicate Sound(fs: FileSystem, chain: seq<string>) {
    && (forall i :: 0 <= i < |chain| ==> fs.identity(chain[i]).Some?)
    && (forall i :: 0 < i < |chain| ==> chain[i] in fs.files)
    && (forall i, j :: 0 <= i < j < |chain| ==> !SameIdentity(fs, chain[i], chain[j]))
  }

  ghost predicate AllSound(e: Entry) {
    forall a :: HasFile(e, a) ==> Sound(e.fs, ChainAt(e, a).value)
  }

  /** The reported chain is a real one, and its last file is what the error says. */
  ghost predicate Justified(e: Entry, err: ImportError, a: Address) {
    && HasFile(e, a) && ChainAt(e, a) == Some(err.chain)
    && var last := err.chain[|err.chain| - 1];
       match err
       case NoIdentity(_) => e.fs.identity(last).None?
       case Unreadable(_) => last !in e.fs.files
       case Cycle(_) => exists i :: 0 <= i < |err.chain| - 1 && SameIdentity(e.fs, err.chain[i], last)
  }

  lemma {:induction false} JustifiedUnsound(e: Entry, err: ImportError, a: Address)
    requires Justified(e, err, a)
    ensures !AllSound(e)
  {
    assert !Sound(e.fs, err.chain);
  }

  lemma {:induction false} ChainPrefix(e: Entry, a: Address, b: Address)
    requires a <= b && ChainAt(e, b).Some?
    ensures ChainAt(e, a).Some? && ChainAt(e, a).value <= ChainAt(e, b).value
    decreases |b|
  {
    if |a| < |b| {
      assert a <= b[..|b| - 1];
      ChainPrefix(e, a, b[..|b| - 1]);
    } else {
      assert a == b;
    }
  }

  // ------------------------------------------------------- depth-first pre-order

  /** Lexicographic order: a file comes before its imports, and those in list order. */
  ghost predicate Before(a: Address, b: Address) {
    (a <= b && a != b) || exists i :: DiffersAt(a, b, i)
  }

  ghost predicate DiffersAt(a: Address, b: Address, i: nat) {
    i < |a| && i < |b| && a[..i] == b[..i] && a[i] < b[i]
  }

  ghost predicate Ascending(s: seq<Address>) {
    forall i, j :: 0 <= i < j < |s| ==> Before(s[i], s[j])
  }

  lemma {:induction false} SiblingsBefore(a: Address, j: nat, k: nat, x: Address, y: Address)
    requires j < k && a + [j] <= x && a + [k] <= y
    ensures Before(x, y) && !Before(y, x)
  {
    var n := |a|;
    assert x[..n] == a && y[..n] == a;
    assert x[n] == j && y[n] == k;
    assert DiffersAt(x, y, n);
    forall i: nat ensures !DiffersAt(y, x, i) {
      if i < |x| && i < |y| {
        if i < n {
          assert y[..n][i] == x[..n][i];
        } else if i > n {
          assert y[..i][n] == k && x[..i][n] == j;
        }
      }
    }
  }

  lemma PrefixBefore(a: Address, b: Address)
    requires a <= b && |a| < |b|
    ensures Before(a, b)
  {
  }

  lemma {:induction false} NotBeforeParent(a: Address, b: Address)
    requires a <= b
    ensures !Before(b, a)
  {
    forall i: nat ensures !DiffersAt(b, a, i) {
    }
  }

  /** The files strictly below `a`; only those before `stop` when the walk ended there. */
  ghost predicate Below(e: Entry, a: Address, stop: Option<Address>, x: Address) {
    a <= x && |a| < |x| && HasFile(e, x) && (stop.Some? ==> Before(x, stop.value))
  }

  /** `list` holds, in order, what lies below the first `k` imports of `a`. */
  ghost predicate Walked(e: Entry, a: Address, k: nat, list: seq<Address>) {
    Ascending(list) && forall x :: x in list <==> Below(e, a, None, x) && x[|a|] < k
  }

  ghost predicate Complete(e: Entry, a: Address, stop: Option<Address>, list: seq<Address>) {
    Ascending(list) && forall x :: x in list <==> Below(e, a, stop, x)
  }

  lemma {:induction false} Under(e: Entry, a: Address, k: nat, x: Address)
    ensures Below(e, a, None, x) && x[|a|] == k <==> HasFile(e, x) && a + [k] <= x
  {
    hide HasFile;
    if a <= x && |a| < |x| && x[|a|] == k {
      assert x[..|a| + 1] == a + [k];
    }
    if a + [k] <= x {
      assert x[|a|] == k;
    }
  }

  lemma {:induction false} SkipBlank(e: Entry, a: Address, k: nat, list: seq<Address>)
    requires Walked(e, a, k, list) && SoundBelow(e, a, k) && ChainAt(e, a + [k]).None?
    ensures Walked(e, a, k + 1, list) && SoundBelow(e, a, k + 1)
  {
    forall x | Below(e, a, None, x) ensures x[|a|] != k {
      Under(e, a, k, x);
      if a + [k] <= x {
        ChainPrefix(e, a + [k], x);
      }
    }
  }

  /** The walk ends at import `k` of `a` itself. */
  lemma {:induction false} StopHere(e: Entry, a: Address, k: nat, list: seq<Address>)
    requires Walked(e, a, k, list)
    ensures Complete(e, a, Some(a + [k]), list)
  {
    forall x | Below(e, a, None, x) ensures x[|a|] < k <==> Before(x, a + [k]) {
      Under(e, a, x[|a|], x);
      if x[|a|] < k {
        SiblingsBefore(a, x[|a|], k, x, a + [k]);
      } else if x[|a|] > k {
        SiblingsBefore(a, k, x[|a|], a + [k], x);
      } else {
        NotBeforeParent(a + [k], x);
      }
    }
  }

  lemma {:induction false} BelowBefore(e: Entry, a: Address, k: nat, x: Address, y: Address)
    requires Below(e, a, None, x) && x[|a|] < k && a + [k] <= y
    ensures Before(x, y)
  {
    Under(e, a, x[|a|], x);
    SiblingsBefore(a, x[|a|], k, x, y);
  }

  lemma {:induction false} AppendSubtree(
    e: Entry, a: Address, k: nat, list: seq<Address>, sub: seq<Address>, stop: Option<Address>)
    requires Walked(e, a, k, list) && Complete(e, a + [k], stop, sub)
    ensures Ascending(list + [a + [k]] + sub)
  {
    hide Before, HasFile, ChainAt;
    var child := a + [k];
    var all := list + [child] + sub;
    var n := |list|;
    forall i, j | 0 <= i < j < |all| ensures Before(all[i], all[j]) {
      if j < n {
        assert all[i] == list[i] && all[j] == list[j];
      } else if i > n {
        assert all[i] == sub[i - n - 1] && all[j] == sub[j - n - 1];
      } else {
        if j > n {
          assert all[j] == sub[j - n - 1];
          assert Below(e, child, stop, all[j]);
        }
        if i < n {
          assert all[i] == list[i];
          assert Below(e, a, None, all[i]);
          BelowBefore(e, a, k, all[i], all[j]);
        } else {
          PrefixBefore(child, all[j]);
        }
      }
    }
  }

  /** Import `k` was walked to the end. */
  lemma {:induction false} StepOver(e: Entry, a: Address, k: nat, list: seq<Address>, sub: seq<Address>)
    requires Walked(e, a, k, list) && Complete(e, a + [k], None, sub) && HasFile(e, a + [k])
    ensures Walked(e, a, k + 1, list + [a + [k]] + sub)
  {
    hide Before, Ascending, HasFile, ChainAt;
    AppendSubtree(e, a, k, list, sub, None);
    var child := a + [k];
    forall x ensures x in list + [child] + sub <==> Below(e, a, None, x) && x[|a|] < k + 1 {
      Under(e, a, k, x);
      assert child <= x && |child| == |x| ==> x == child;
    }
  }

  /** The walk ended somewhere below import `k`. */
  lemma {:induction false} StopBelow(e: Entry, a: Address, k: nat, list: seq<Address>, sub: seq<Address>, stop: Address)
    requires Walked(e, a, k, list) && Complete(e, a + [k], Some(stop), sub) && HasFile(e, a + [k])
    requires a + [k] <= stop && |a| + 1 < |stop|
    ensures Complete(e, a, Some(stop), list + [a + [k]] + sub)
  {
    hide Before, Ascending, HasFile, ChainAt;
    AppendSubtree(e, a, k, list, sub, Some(stop));
    var child := a + [k];
    PrefixBefore(child, stop);
    forall x ensures x in list + [child] + sub <==> Below(e, a, Some(stop), x) {
      Under(e, a, k, x);
      assert child <= x && |child| == |x| ==> x == child;
      if Below(e, a, None, x) {
        Under(e, a, x[|a|], x);
        if x[|a|] < k {
          SiblingsBefore(a, x[|a|], k, x, stop);
        } else if x[|a|] > k {
          SiblingsBefore(a, k, x[|a|], stop, x);
        }
      }
    }
  }

  ghost predicate SoundBelow(e: Entry, a: Address, k: nat) {
    forall x | Below(e, a, None, x) && x[|a|] < k :: Sound(e.fs, ChainAt(e, x).value)
  }

  ghost predicate AllSoundBelow(e: Entry, a: Address) {
    forall x | Below(e, a, None, x) :: Sound(e.fs, ChainAt(e, x).value)
  }

  lemma {:induction false} SoundStep(e: Entry, a: Address, k: nat)
    requires SoundBelow(e, a, k)
    requires HasFile(e, a + [k]) ==> Sound(e.fs, ChainAt(e, a + [k]).value) && AllSoundBelow(e, a + [k])
    ensures SoundBelow(e, a, k + 1)
  {
    forall x | Below(e, a, None, x) && x[|a|] == k ensures Sound(e.fs, ChainAt(e, x).value) {
      Under(e, a, k, x);
      ChainPrefix(e, a + [k], x);
      assert |x| == |a| + 1 ==> x == a + [k];
    }
  }

  /** A readable import whose identity is not among its ancestors' extends a sound chain. */
  lemma {:induction false} SoundExtend(fs: FileSystem, chain: seq<string>, path: string)
    requires Sound(fs, chain) && path in fs.files && fs.identity(path).Some?
    requires forall p :: p in chain ==> fs.identity(p) != fs.identity(path)
    ensures Sound(fs, chain + [path])
  {
  }

  // ------------------------------------------------------------------- merging

  ghost function Leaves(e: Entry, a: Address): map<string, string>
    requires HasFile(e, a)
  {
    var path := ChainAt(e, a).value[|a|];
    if path in e.fs.files then e.fs.files[path].leaves else map[]
  }

  ghost function Overlay(e: Entry, base: map<string, string>, addrs: seq<Address>): map<string, string>
    requires forall k :: 0 <= k < |addrs| ==> HasFile(e, addrs[k])
  {
    if addrs == [] then base
    else Overlay(e, base, addrs[..|addrs| - 1]) + Leaves(e, addrs[|addrs| - 1])
  }

  lemma OverlayStep(e: Entry, base: map<string, string>, addrs: seq<Address>, a: Address)
    requires forall k :: 0 <= k < |addrs| ==> HasFile(e, addrs[k])
    requires HasFile(e, a)
    ensures Overlay(e, base, addrs + [a]) == Overlay(e, base, addrs) + Leaves(e, a)
  {
    hide HasFile, ChainAt, Leaves;
    assert (addrs + [a])[..|addrs|] == addrs;
  }

  /** The path of the file that an address leads to. */
  ghost function PathAt(e: Entry, a: Address): string
    requires HasFile(e, a)
  {
    ChainAt(e, a).value[|a|]
  }

  /** The file at an address can be read and has a value for the key. */
  ghost predicate Defines(e: Entry, a: Address, key: string)
    requires HasFile(e, a)
  {
    PathAt(e, a) in e.fs.files && key in e.fs.files[PathAt(e, a)].leaves
  }

  /** What an import leads to: an item that is not blank, of the entry's list or of the list in a file that can be read. */
  lemma {:induction false} ImportLeads(e: Entry, a: Address, k: nat)
    ensures a == [] ==>
      (HasFile(e, [k]) <==> k < |e.imports| && TrimSpace(e.imports[k]) != "")
      && (HasFile(e, [k]) ==> PathAt(e, [k]) == e.fs.resolve(e.path, TrimSpace(e.imports[k])))
    ensures a != [] ==>
      (HasFile(e, a + [k]) <==>
        HasFile(e, a) && PathAt(e, a) in e.fs.files
        && k < |e.fs.files[PathAt(e, a)].imports| && TrimSpace(e.fs.files[PathAt(e, a)].imports[k]) != "")
      && (HasFile(e, a + [k]) ==>
           PathAt(e, a + [k]) == e.fs.resolve(PathAt(e, a), TrimSpace(e.fs.files[PathAt(e, a)].imports[k])))
  {
    hide TrimSpace;
    assert (a + [k])[..|a|] == a && (a + [k])[|a|] == k;
    assert [k][..0] == [] && ChainAt(e, []) == Some([e.path]);
    if a == [] {
      assert ChainAt(e, [k]) == if k < |e.imports| && TrimSpace(e.imports[k]) != "" then
        Some([e.path] + [e.fs.resolve(e.path, TrimSpace(e.imports[k]))]) else None;
    }
  }

  /** The last file to define a key decides its value. */
  lemma {:induction false} LastDefinerWins(e: Entry, base: map<string, string>, addrs: seq<Address>, key: string, i: nat)
    requires forall k :: 0 <= k < |addrs| ==> HasFile(e, addrs[k])
    requires i < |addrs| && Defines(e, addrs[i], key)
    requires forall k :: i < k < |addrs| ==> !Defines(e, addrs[k], key)
    ensures key in Overlay(e, base, addrs)
    ensures Overlay(e, base, addrs)[key] == e.fs.files[PathAt(e, addrs[i])].leaves[key]
  {
    if |addrs| > i + 1 {
      LastDefinerWins(e, base, addrs[..|addrs| - 1], key, i);
    }
  }

  /** A key no import defines keeps the value of the entry file. */
  lemma {:induction false} UndefinedKeepsBase(e: Entry, base: map<string, string>, addrs: seq<Address>, key: string)
    requires forall k :: 0 <= k < |addrs| ==> HasFile(e, addrs[k])
    requires forall k :: 0 <= k < |addrs| ==> !Defines(e, addrs[k], key)
    ensures key in Overlay(e, base, addrs) <==> key in base
    ensures key in base ==> Overlay(e, base, addrs)[key] == base[key]
  {
    if addrs != [] {
      UndefinedKeepsBase(e, base, addrs[..|addrs| - 1], key);
    }
  }

  lemma {:induction false} WalkStart(e: Entry, a: Address)
    ensures Walked(e, a, 0, []) && SoundBelow(e, a, 0)
  {
  }

  lemma {:induction false} ImportIndex(e: Entry, a: Address, x: Address)
    requires ChainAt(e, a).Some? && a <= x && |a| < |x| && ChainAt(e, x).Some?
    ensures x[|a|] < |ImportsOf(e, ChainAt(e, a).value)|
  {
    hide TrimSpace, ImportsOf;
    var child := x[..|a| + 1];
    ChainPrefix(e, child, x);
    assert child[..|a|] == a;
  }

  lemma {:induction false} WalkEnd(e: Entry, a: Address, k: nat, list: seq<Address>)
    requires ChainAt(e, a).Some? && k == |ImportsOf(e, ChainAt(e, a).value)|
    requires Walked(e, a, k, list) && SoundBelow(e, a, k)
    ensures Complete(e, a, None, list) && AllSoundBelow(e, a)
  {
    hide ChainAt, Sound, Ascending, ImportsOf;
    forall x | Below(e, a, None, x) ensures x[|a|] < k {
      ImportIndex(e, a, x);
    }
  }

  lemma {:induction false} ChildChain(e: Entry, a: Address, k: nat)
    requires ChainAt(e, a).Some? && k < |ImportsOf(e, ChainAt(e, a).value)|
    ensures
      var chain := ChainAt(e, a).value;
      var item := TrimSpace(ImportsOf(e, chain)[k]);
      ChainAt(e, a + [k]) == if item == "" then None else Some(chain + [e.fs.resolve(chain[|chain| - 1], item)])
  {
    hide TrimSpace, ImportsOf;
    assert (a + [k])[..|a|] == a;
  }

  ghost function IdentitiesOf(fs: FileSystem, chain: seq<string>): set<string> {
    set p | p in chain && fs.identity(p).Some? :: fs.identity(p).value
  }

  lemma {:induction false} CycleFound(fs: FileSystem, chain: seq<string>, path: string)
    requires fs.identity(path).Some? && fs.identity(path).value in IdentitiesOf(fs, chain)
    ensures var next := chain + [path];
      exists i :: 0 <= i < |next| - 1 && SameIdentity(fs, next[i], next[|next| - 1])
  {
    var p :| p in chain && fs.identity(p) == fs.identity(path);
    var i :| 0 <= i < |chain| && chain[i] == p;
    assert SameIdentity(fs, (chain + [path])[i], path);
  }

  lemma {:induction false} NewIdentity(fs: FileSystem, chain: seq<string>, path: string)
    requires fs.identity(path).Some? && fs.identity(path).value !in IdentitiesOf(fs, chain)
    ensures IdentitiesOf(fs, chain + [path]) == IdentitiesOf(fs, chain) + {fs.identity(path).value}
    ensures forall p :: p in chain ==> fs.identity(p) != fs.identity(path)
  {
    assert forall p :: p in chain + [path] <==> p in chain || p == path;
    forall p | p in chain ensures fs.identity(p) != fs.identity(path) {
      if fs.identity(p).Some? {
        assert fs.identity(p).value in IdentitiesOf(fs, chain);
      }
    }
  }

  lemma {:induction false} Refused(e: Entry, a: Address, k: nat, err: ImportError)
    requires ChainAt(e, a + [k]) == Some(err.chain)
    requires
      var last := err.chain[|err.chain| - 1];
      match err
      case NoIdentity(_) => e.fs.identity(last).None?
      case Unreadable(_) => last !in e.fs.files
      case Cycle(_) => exists i :: 0 <= i < |err.chain| - 1 && SameIdentity(e.fs, err.chain[i], last)
    ensures Justified(e, err, a + [k])
  {
  }

  /** Everything the walk of a child may rely on. */
  lemma {:induction false} Descend(e: Entry, a: Address, k: nat, chain: seq<string>, path: string)
    requires |chain| == |a| + 1 && Sound(e.fs, chain)
    requires ChainAt(e, a + [k]) == Some(chain + [path])
    requires path in e.fs.files && e.fs.identity(path).Some?
    requires e.fs.identity(path).value !in IdentitiesOf(e.fs, chain)
    ensures HasFile(e, a + [k]) && Sound(e.fs, chain + [path])
    ensures IdentitiesOf(e.fs, chain + [path]) == IdentitiesOf(e.fs, chain) + {e.fs.identity(path).value}
  {
    NewIdentity(e.fs, chain, path);
    SoundExtend(e.fs, chain, path);
  }

  lemma Suffix(front: seq<Address>, list: seq<Address>, all: seq<Address>)
    requires all == front + list
    ensures front <= all && all[|front|..] == list
  {
  }

  class Loader {
    const entry: Entry
    var config: map<string, string>
    var configFile: string
    var active: set<string>
    ghost const base: map<string, string>
    ghost var merged: seq<Address>

    constructor (e: Entry, initial: map<string, string>)
      ensures entry == e && base == config == initial && active == {} && merged == [] && Consistent()
      ensures configFile == e.path
    {
      entry, base, config, configFile, active, merged := e, initial, initial, e.path, {}, [];
    }

    /** The configuration is the base overlaid with what was merged so far. */
    ghost predicate Consistent()
      reads `config, `merged
    {
      && (forall k :: 0 <= k < |merged| ==> HasFile(entry, merged[k]))
      && config == Overlay(entry, base, merged)
    }

    ghost function Identities(): set<string> {
      set p | p in entry.fs.files && entry.fs.identity(p).Some? :: entry.fs.identity(p).value
    }

    method MergeOne(path: string, ghost a: Address)
      requires Consistent() && HasFile(entry, a) && ChainAt(entry, a).value[|a|] == path
      requires path in entry.fs.files
      modifies this`config, this`configFile, this`merged
      ensures Consistent() && merged == old(merged) + [a]
    {
      hide ChainAt, Overlay;
      OverlayStep(entry, base, merged, a);
      configFile := path;
      config := config + entry.fs.files[path].leaves;
      merged := merged + [a];
    }

    /** Merges one import and what it imports, with its identity active meanwhile. */
    method MergeChild(path: string, chain: seq<string>, ghost a: Address, identity: string)
      returns (err: Option<ImportError>, ghost stop: Option<Address>, ghost sub: seq<Address>)
      requires Consistent() && HasFile(entry, a) && ChainAt(entry, a) == Some(chain) && Sound(entry.fs, chain)
      requires |chain| == |a| + 1 > 1 && path == chain[|a|] && path in entry.fs.files
      requires entry.fs.identity(path) == Some(identity) && identity !in active
      requires active + {identity} == IdentitiesOf(entry.fs, chain)
      modifies this`config, this`configFile, this`active, this`merged
      ensures Consistent() && active == old(active)
      ensures merged == old(merged) + ([a] + sub) && Complete(entry, a, stop, sub)
      ensures err.None? ==> stop.None? && AllSoundBelow(entry, a)
      ensures err.Some? ==>
        && stop.Some? && a <= stop.value && |a| < |stop.value|
        && Justified(entry, err.value, stop.value)
      decreases Identities() - active, 0
    {
      hide Complete, AllSoundBelow, Consistent, ChainAt, Sound, IdentitiesOf, Justified, HasFile;
      MergeOne(path, a);
      ghost var before := merged;
      assert identity in Identities() - active;
      active := active + {identity};
      err, stop := MergeImportFiles(path, entry.fs.files[path].imports, chain, a);
      active := active - {identity};
      sub := merged[|before|..];
    }

    method MergeImportFiles(parentPath: string, imports: seq<string>, chain: seq<string>, ghost a: Address)
      returns (err: Option<ImportError>, ghost stop: Option<Address>)
      requires Consistent() && active == IdentitiesOf(entry.fs, chain)
      requires ChainAt(entry, a) == Some(chain) && Sound(entry.fs, chain)
      requires |chain| == |a| + 1 && parentPath == chain[|chain| - 1] && imports == ImportsOf(entry, chain)
      modifies this`config, this`configFile, this`active, this`merged
      ensures Consistent() && active == old(active)
      ensures old(merged) <= merged && Complete(entry, a, stop, merged[|old(merged)|..])
      ensures err.None? ==> stop.None? && AllSoundBelow(entry, a)
      ensures err.Some? ==>
        && stop.Some? && a <= stop.value && |a| < |stop.value|
        && Justified(entry, err.value, stop.value)
      decreases Identities() - active, 1
    {
      hide *;
      err, stop := None, None;
      ghost var list: seq<Address> := [];
      WalkStart(entry, a);
      for k := 0 to |imports|
        invariant err.None? && stop.None? && Consistent() && active == old(active)
        invariant merged == old(merged) + list && Walked(entry, a, k, list) && SoundBelow(entry, a, k)
      {
        ghost var child := a + [k];
        ChildChain(entry, a, k);
        var item := TrimSpace(imports[k]);
        if item == "" {
          SkipBlank(entry, a, k, list);
          continue;
        }
        var importPath := entry.fs.resolve(parentPath, item);
        var nextChain := chain + [importPath];
        var identity := entry.fs.identity(importPath);
        StopHere(entry, a, k, list);
        Suffix(old(merged), list, merged);
        if identity.None? {
          Refused(entry, a, k, NoIdentity(nextChain));
          return Some(NoIdentity(nextChain)), Some(child);
        }
        if identity.value in active {
          CycleFound(entry.fs, chain, importPath);
          Refused(entry, a, k, Cycle(nextChain));
          return Some(Cycle(nextChain)), Some(child);
        }
        if importPath !in entry.fs.files {
          Refused(entry, a, k, Unreadable(nextChain));
          return Some(Unreadable(nextChain)), Some(child);
        }
        Descend(entry, a, k, chain, importPath);
        ghost var sub;
        err, stop, sub := MergeChild(importPath, nextChain, child, identity.value);
        ghost var grown := list + [child] + sub;
        assert merged == old(merged) + grown;
        if err.Some? {
          StopBelow(entry, a, k, list, sub, stop.value);
          Suffix(old(merged), grown, merged);
          return;
        }
        StepOver(entry, a, k, list, sub);
        SoundStep(entry, a, k);
        list := grown;
      }
      WalkEnd(entry, a, |imports|, list);
      Suffix(old(merged), list, merged);
    }

    /** Merges everything the entry imports. It succeeds exactly when every import on every chain is
        readable and no file imports itself; the entry stays the file in use whatever happens. */
    method MergeImports() returns (err: Option<ImportError>, ghost stop: Option<Address>)
      requires Consistent() && merged == [] && active == {}
      modifies this
      ensures configFile == entry.path
      ensures err.None? <==> entry.imports == [] || (entry.fs.identity(entry.path).Some? && AllSound(entry))
      ensures err.None? ==> Complete(entry, [], None, merged)
      ensures Consistent()
      ensures err.Some? && stop.Some? ==> Justified(entry, err.value, stop.value) && Complete(entry, [], stop, merged)
      ensures err.Some? && stop.None? ==> err.value == NoIdentity([entry.path]) && merged == []
    {
      hide Complete, AllSoundBelow, Overlay, ChainAt, Sound;
      configFile := entry.path;
      EntryChain(entry);
      if |entry.imports| == 0 {
        NothingBelow(entry);
        return None, None;
      }
      var root := entry.fs.identity(entry.path);
      if root.None? {
        return Some(NoIdentity([entry.path])), None;
      }
      active := {root.value};
      assert active == IdentitiesOf(entry.fs, [entry.path]);
      EntrySound(entry);
      err, stop := MergeImportFiles(entry.path, entry.imports, [entry.path], []);
      configFile := entry.path;
      assert merged[0..] == merged;
      if err.None? {
        BelowEntry(entry);
      } else {
        JustifiedUnsound(entry, err.value, stop.value);
      }
    }
  }

  lemma EntryChain(e: Entry)
    ensures ChainAt(e, []) == Some([e.path]) && ImportsOf(e, [e.path]) == e.imports
  {
  }

  lemma EntrySound(e: Entry)
    requires e.fs.identity(e.path).Some?
    ensures Sound(e.fs, [e.path])
  {
  }

  lemma {:induction false} NothingBelow(e: Entry)
    requires e.imports == []
    ensures Complete(e, [], None, [])
  {
    WalkStart(e, []);
    EntryChain(e);
    WalkEnd(e, [], 0, []);
  }

  lemma {:induction false} BelowEntry(e: Entry)
    requires AllSoundBelow(e, [])
    ensures AllSound(e)
  {
    forall a | HasFile(e, a) ensures Sound(e.fs, ChainAt(e, a).value) {
      assert Below(e, [], None, a);
    }
  }
}
