/** src/acp/domain/agents.py: the canonical encoding of a required-capability set, and the list of
    encodings a worker can satisfy. */
module Agents {
  import opened Wrappers
  import opened Orders
  import opened Text

  const MAX_KEYED_CLAIM_CAPABILITIES: nat := 5

  /** `{c.strip().lower() for c in capabilities if c and c.strip()}`. */
  function Normalised(capabilities: seq<string>): set<string> {
    set c | c in capabilities && Strip(c) != "" :: Normalise(c)
  }

  /** `sorted(names)`. */
  function Sorted(names: set<string>): (r: seq<string>)
    ensures |r| == |names| && Elements(r) == names && Increasing(r, Lex)
  {
    LexIsTotalOrder();
    AscendingIncreases(names, Lex);
    Ascending(names, Lex)
  }

  /** The comma-joined, sorted names of a set: what a key looks like. */
  function Encode(names: set<string>): string {
    Join(Sorted(names))
  }

  lemma EncodeList(names: seq<string>)
    requires Increasing(names, Lex)
    ensures Encode(Elements(names)) == Join(names)
  {
    LexIsTotalOrder();
    IncreasingIsAscending(names, Lex);
  }

  function CapabilityKey(capabilities: seq<string>): string {
    Encode(Normalised(capabilities))
  }

  predicate WorkerSatisfies(required: seq<string>, workerCapabilities: seq<string>) {
    Normalised(required) <= Normalised(workerCapabilities)
  }

  /** The encodings of every subset of the worker's capabilities. */
  function SubsetKeys(capabilities: set<string>): set<string> {
    set names | names <= capabilities :: Encode(names)
  }

  function SatisfiableKeys(workerCapabilities: seq<string>): set<string> {
    SubsetKeys(Normalised(workerCapabilities))
  }

  predicate AllCommaFree(names: set<string>) {
    forall n <- names :: CommaFree(n)
  }

  /** A name the normaliser leaves alone and keeps. */
  predicate Clean(name: string) {
    name != "" && Normalise(name) == name
  }

  lemma NormalisedAreClean(capabilities: seq<string>)
    ensures forall n <- Normalised(capabilities) :: Clean(n)
  {
    forall n | n in Normalised(capabilities) ensures Clean(n) {
      var c :| c in capabilities && Strip(c) != "" && n == Normalise(c);
      NormaliseIdempotent(c);
    }
  }

  lemma CleanAreKept(names: seq<string>)
    requires forall n <- names :: Clean(n)
    ensures Normalised(names) == Elements(names)
  {
    forall n | n in names ensures Strip(n) != "" && Normalise(n) == n {
      assert |Lower(Strip(n))| == |n| > 0;
    }
  }

  lemma ShortNamesAreClean(n: string)
    requires |n| == 1 && 'a' <= n[0] <= 'z'
    ensures Clean(n)
  {
    assert Strip(n) == n;
    assert Lower(n) == n;
  }

  /** The normal forms of a list, blanks included. */
  function NormalForms(capabilities: seq<string>): set<string> {
    set c | c in capabilities :: Normalise(c)
  }

  lemma NormalFormsButBlank(capabilities: seq<string>)
    ensures Normalised(capabilities) == NormalForms(capabilities) - {""}
  {
    forall c | c in capabilities ensures Strip(c) == "" <==> Normalise(c) == "" {
      assert |Normalise(c)| == |Strip(c)|;
    }
    forall n ensures n in Normalised(capabilities) <==> n in NormalForms(capabilities) - {""} {}
  }

  /** `capability_key` sees only the set of normal forms: order, case, padding, blanks and duplicates are gone. */
  lemma KeyOfForms(a: seq<string>, b: seq<string>)
    requires NormalForms(a) - {""} == NormalForms(b) - {""}
    ensures CapabilityKey(a) == CapabilityKey(b)
  {
    NormalFormsButBlank(a);
    NormalFormsButBlank(b);
  }

  /** The names a key stands for: what splitting it on commas gives. */
  function Decode(key: string): set<string> {
    if key == "" then {} else Elements(Split(key))
  }

  /** Splitting a key on commas recovers the capability set, when no name holds a comma. */
  lemma DecodeEncode(names: set<string>)
    requires AllCommaFree(names) && "" !in names
    ensures Decode(Encode(names)) == names
  {
    var sorted := Sorted(names);
    if names != {} {
      SplitJoin(sorted);
      assert sorted != [] && sorted[0] in names;
      assert Encode(names) != "";
    }
  }

  /** Comma-free sets have distinct keys. */
  lemma EncodeInjective(a: set<string>, b: set<string>)
    requires AllCommaFree(a) && AllCommaFree(b) && "" !in a && "" !in b
    requires Encode(a) == Encode(b)
    ensures a == b
  {
    DecodeEncode(a);
    DecodeEncode(b);
  }

  /** A worker that satisfies a task always finds its key: no precondition at all. */
  lemma SatisfiedKeyIsListed(required: seq<string>, worker: seq<string>)
    requires WorkerSatisfies(required, worker)
    ensures CapabilityKey(required) in SatisfiableKeys(worker)
  {
    var names := Normalised(required);
    assert names <= Normalised(worker);
    assert Encode(names) in SatisfiableKeys(worker);
  }

  /** The keyed path is the subset test, for comma-free names on both sides. */
  lemma KeyListedIffSatisfied(required: seq<string>, worker: seq<string>)
    requires AllCommaFree(Normalised(required)) && AllCommaFree(Normalised(worker))
    ensures CapabilityKey(required) in SatisfiableKeys(worker) <==> WorkerSatisfies(required, worker)
  {
    if CapabilityKey(required) in SatisfiableKeys(worker) {
      var names :| names <= Normalised(worker) && Encode(names) == CapabilityKey(required);
      NormalisedAreClean(required);
      NormalisedAreClean(worker);
      EncodeInjective(names, Normalised(required));
    }
    if WorkerSatisfies(required, worker) {
      SatisfiedKeyIsListed(required, worker);
    }
  }

  /** A key whose comma pieces are themselves a normalised list with the same key. */
  predicate KeyReadsAsList(required: seq<string>) {
    CapabilityKey(Split(CapabilityKey(required))) == CapabilityKey(required)
  }

  /** Requirements are not checked for commas. Against workers whose own names are comma-free (what
      `Settings.capabilities` produces), the key list answers the subset question for every worker
      exactly when the required names are comma-free or their key does not read as a list. */
  lemma KeyExactIff(required: seq<string>)
    ensures
      (forall worker: seq<string> | AllCommaFree(Normalised(worker)) ::
        CapabilityKey(required) in SatisfiableKeys(worker) <==> WorkerSatisfies(required, worker))
      <==>
      AllCommaFree(Normalised(required)) || !KeyReadsAsList(required)
  {
    if AllCommaFree(Normalised(required)) {
      forall worker: seq<string> | AllCommaFree(Normalised(worker)) {
        KeyListedIffSatisfied(required, worker);
      }
    } else if KeyReadsAsList(required) {
      CommaBreaksKey(required);
    } else {
      forall worker: seq<string> | AllCommaFree(Normalised(worker)) {
        UnreadableKeyIsSafe(required, worker);
      }
    }
  }

  lemma CommaBreaksKey(required: seq<string>)
    requires !AllCommaFree(Normalised(required)) && KeyReadsAsList(required)
    ensures exists worker: seq<string> :: AllCommaFree(Normalised(worker)) &&
              CapabilityKey(required) in SatisfiableKeys(worker) && !WorkerSatisfies(required, worker)
  {
    var pieces := Split(CapabilityKey(required));
    PiecesCommaFree(CapabilityKey(required));
    forall n | n in Normalised(pieces) ensures CommaFree(n) {
      var c :| c in pieces && Strip(c) != "" && n == Normalise(c);
      NormaliseKeepsCommaFree(c);
    }
    assert Encode(Normalised(pieces)) in SatisfiableKeys(pieces);
  }

  lemma UnreadableKeyIsSafe(required: seq<string>, worker: seq<string>)
    requires AllCommaFree(Normalised(worker)) && !AllCommaFree(Normalised(required))
    requires !KeyReadsAsList(required)
    ensures CapabilityKey(required) in SatisfiableKeys(worker) <==> WorkerSatisfies(required, worker)
  {
    var key := CapabilityKey(required);
    if key in SatisfiableKeys(worker) {
      var names :| names <= Normalised(worker) && Encode(names) == key;
      NormalisedAreClean(worker);
      EncodedListReads(names);
      assert false;
    }
    if WorkerSatisfies(required, worker) {
      SatisfiedKeyIsListed(required, worker);
    }
  }

  /** The key of a comma-free clean set splits into a list with that same key. */
  lemma EncodedListReads(names: set<string>)
    requires AllCommaFree(names) && forall n <- names :: Clean(n)
    ensures CapabilityKey(Split(Encode(names))) == Encode(names)
  {
    var sorted := Sorted(names);
    if names == {} {
      NormalFormsButBlank([""]);
      assert Normalise("") == "";
      assert Normalised([""]) == {};
    } else {
      SplitJoin(sorted);
      CleanAreKept(sorted);
      assert Elements(sorted) == names;
    }
  }

  lemma {:induction false} StripIsInfix(s: string, c: char)
    requires c !in s
    ensures c !in Strip(s)
  {
    StripLeftIsInfix(s, c);
    StripRightIsInfix(StripLeft(s), c);
  }

  lemma {:induction false} StripLeftIsInfix(s: string, c: char)
    requires c !in s
    ensures c !in StripLeft(s)
  {
    if s != "" && IsSpace(s[0]) { StripLeftIsInfix(s[1..], c); }
  }

  lemma {:induction false} StripRightIsInfix(s: string, c: char)
    requires c !in s
    ensures c !in StripRight(s)
  {
    if s != "" && IsSpace(s[|s| - 1]) { StripRightIsInfix(s[..|s| - 1], c); }
  }

  lemma NormaliseKeepsCommaFree(s: string)
    requires CommaFree(s)
    ensures CommaFree(Normalise(s))
  {
    StripIsInfix(s, ',');
    var t := Strip(s);
    forall i | 0 <= i < |t| ensures LowerChar(t[i]) != ',' {
      assert t[i] in t;
    }
  }

  /** Requirements that defeat the key list: the one name "a,b" looks like the two names "a" and "b". */
  lemma CommaCounterexample(a: string, b: string)
    requires Clean(a) && Clean(b) && CommaFree(a) && CommaFree(b) && Lex(a, b)
    ensures CapabilityKey([a + "," + b]) in SatisfiableKeys([a, b])
    ensures !WorkerSatisfies([a + "," + b], [a, b])
  {
    CommaJoined(a, b);
    KeyOfCleanList([a + "," + b]);
    KeyOfCleanList([a, b]);
    SatisfiedKeyIsListed([a, b], [a, b]);
    CommaTells(a, b);
  }

  lemma CommaJoined(a: string, b: string)
    requires Clean(a) && Clean(b)
    ensures Clean(a + "," + b) && Join([a, b]) == a + "," + b
  {
    CleanEnds(a);
    CleanEnds(b);
    LowerCaseStays(a + "," + b);
    assert [a, b][1..] == [b];
  }

  lemma CommaTells(a: string, b: string)
    requires CommaFree(a) && CommaFree(b)
    ensures !(Elements([a + "," + b]) <= Elements([a, b]))
  {
    var one := a + "," + b;
    assert one[|a|] == ',' && ',' in one;
    assert one in Elements([one]);
  }

  lemma CleanEnds(s: string)
    requires Clean(s)
    ensures Trimmed(s) && forall i | 0 <= i < |s| :: LowerChar(s[i]) == s[i]
  {
    NormaliseTrims(s);
    var t := Strip(s);
    assert |t| == |s| && s == Lower(t);
    forall i | 0 <= i < |s| ensures LowerChar(s[i]) == s[i] {
      assert s[i] == LowerChar(t[i]);
    }
  }

  lemma KeyOfCleanList(names: seq<string>)
    requires Increasing(names, Lex) && forall n <- names :: Clean(n)
    ensures CapabilityKey(names) == Join(names) && Normalised(names) == Elements(names)
  {
    CleanAreKept(names);
    EncodeList(names);
  }

  lemma LowerCaseStays(s: string)
    requires Trimmed(s) && forall i | 0 <= i < |s| :: LowerChar(s[i]) == s[i]
    ensures Normalise(s) == s
  {
    TrimmedStays(s);
  }

  // ---- how many keys there are -------------------------------------------------------------

  ghost function Subsets(s: set<string>): set<set<string>> {
    set names | names <= s
  }

  lemma {:induction false} SubsetCount(s: set<string>)
    ensures |Subsets(s)| == Pow(2, |s|)
  {
    if s == {} {
      OneSubset();
    } else {
      var x :| x in s;
      SubsetCount(s - {x});
      SubsetsDouble(s, x);
      assert |s| == |s - {x}| + 1;
    }
  }

  lemma OneSubset()
    ensures Subsets({}) == {{}}
  {
    assert forall names: set<string> :: names <= {} <==> names == {};
  }

  lemma SubsetsDouble(s: set<string>, x: string)
    requires x in s
    ensures |Subsets(s)| == 2 * |Subsets(s - {x})|
  {
    SubsetsSplit(s, x);
    SameSize(Subsets(s - {x}), x);
  }

  ghost function With(sets: set<set<string>>, x: string): set<set<string>> {
    set names | names in sets :: names + {x}
  }

  lemma SubsetsSplit(s: set<string>, x: string)
    requires x in s
    ensures Subsets(s) == Subsets(s - {x}) + With(Subsets(s - {x}), x)
    ensures Subsets(s - {x}) !! With(Subsets(s - {x}), x)
  {
    var without := Subsets(s - {x});
    forall names | names <= s && x in names ensures names in With(without, x) {
      assert names == (names - {x}) + {x} && names - {x} in without;
    }
  }

  lemma {:induction false} SameSize(sets: set<set<string>>, x: string)
    requires forall names <- sets :: x !in names
    ensures |With(sets, x)| == |sets|
  {
    if sets == {} {
    } else {
      var one :| one in sets;
      SameSize(sets - {one}, x);
      forall names | names in sets - {one} ensures names + {x} != one + {x} {
        assert (names + {x}) - {x} == names && (one + {x}) - {x} == one;
      }
      assert With(sets, x) == With(sets - {one}, x) + {one + {x}};
    }
  }

  lemma {:induction false} ImageSize(sets: set<set<string>>)
    ensures var keys := set names | names in sets :: Encode(names);
            && |keys| <= |sets|
            && ((forall a, b | a in sets && b in sets && Encode(a) == Encode(b) :: a == b) ==> |keys| == |sets|)
  {
    if sets == {} {
    } else {
      var one :| one in sets;
      var image := set names | names in sets - {one} :: Encode(names);
      ImageSize(sets - {one});
      OneMoreKey(sets, one, image);
    }
  }

  lemma OneMoreKey(sets: set<set<string>>, one: set<string>, image: set<string>)
    requires one in sets && image == set names | names in sets - {one} :: Encode(names)
    ensures (set names | names in sets :: Encode(names)) == image + {Encode(one)}
  {
    assert sets == (sets - {one}) + {one};
  }

  /** A worker with n distinct capabilities has at most 2^n satisfiable keys, and exactly 2^n when its
      names are comma-free; on the keyed claim path that is at most 32 index scans. */
  lemma KeyCount(worker: seq<string>)
    ensures var n := |Normalised(worker)|;
            && |SatisfiableKeys(worker)| <= Pow(2, n)
            && (AllCommaFree(Normalised(worker)) ==> |SatisfiableKeys(worker)| == Pow(2, n))
            && (n <= MAX_KEYED_CLAIM_CAPABILITIES ==> |SatisfiableKeys(worker)| <= 32)
  {
    var caps := Normalised(worker);
    SubsetCount(caps);
    ImageSize(Subsets(caps));
    assert SatisfiableKeys(worker) == set names | names in Subsets(caps) :: Encode(names);
    if AllCommaFree(caps) {
      NormalisedAreClean(worker);
      forall a, b | a in Subsets(caps) && b in Subsets(caps) && Encode(a) == Encode(b) ensures a == b {
        EncodeInjective(a, b);
      }
    }
    Pow2Grows(|caps|);
  }

  lemma {:induction false} Pow2Grows(n: nat)
    ensures n <= 5 ==> Pow(2, n) <= 32
  {
    if n == 0 {
    } else {
      Pow2Grows(n - 1);
    }
    assert Pow(2, 5) == 32 && Pow(2, 4) == 16 && Pow(2, 3) == 8 && Pow(2, 2) == 4 && Pow(2, 1) == 2;
  }

  // ---- the loops of `satisfiable_capability_keys` ---------------------------------------------

  /** `itertools.combinations(names, r)`. */
  function Combinations(names: seq<string>, r: nat): seq<seq<string>> {
    if r == 0 then [[]]
    else if |names| < r then []
    else Prefixed(names[0], Combinations(names[1..], r - 1)) + Combinations(names[1..], r)
  }

  function Prefixed(name: string, combos: seq<seq<string>>): seq<seq<string>> {
    seq(|combos|, i requires 0 <= i < |combos| => [name] + combos[i])
  }

  /** Combinations of an increasing list are the listings of its subsets of that size. */
  lemma {:induction false} CombinationsAreSubsets(names: seq<string>, r: nat, combo: seq<string>)
    requires Increasing(names, Lex)
    ensures combo in Combinations(names, r) <==>
            |combo| == r && Increasing(combo, Lex) && forall n <- combo :: n in names
    decreases |names|
  {
    if r == 0 {
    } else {
      if |names| < r {
        TooLong(names, combo);
      } else {
        CombinationsAreSubsets(names[1..], r, combo);
        PrefixedHolds(names[0], Combinations(names[1..], r - 1), combo);
        if combo != [] {
          CombinationsAreSubsets(names[1..], r - 1, combo[1..]);
          HeadOfCombo(names, combo);
        }
      }
    }
  }

  lemma TooLong(names: seq<string>, combo: seq<string>)
    ensures Increasing(names, Lex) && Increasing(combo, Lex) && (forall n <- combo :: n in names) ==> |combo| <= |names|
  {
    LexIsTotalOrder();
    if Increasing(names, Lex) && Increasing(combo, Lex) && forall n <- combo :: n in names {
      IncreasingIsAscending(combo, Lex);
      IncreasingIsAscending(names, Lex);
      SubsetSize(Elements(combo), Elements(names));
    }
  }

  lemma PrefixedHolds(name: string, combos: seq<seq<string>>, combo: seq<string>)
    ensures combo in Prefixed(name, combos) <==> combo != [] && combo[0] == name && combo[1..] in combos
  {
    if combo != [] && combo[0] == name && combo[1..] in combos {
      var i :| 0 <= i < |combos| && combos[i] == combo[1..];
      assert combo == [combo[0]] + combo[1..];
      assert Prefixed(name, combos)[i] == combo;
    }
  }

  lemma TailOfCombo(names: seq<string>, combo: seq<string>)
    requires names != [] && combo != [] && Increasing(names, Lex) && Increasing(combo, Lex) && forall n <- combo :: n in names
    ensures forall i | 1 <= i < |combo| :: combo[i] in names[1..]
  {
    LexIsTotalOrder();
    forall i | 1 <= i < |combo| ensures combo[i] in names[1..] {
      assert Lex(combo[0], combo[i]) && combo[0] in names && combo[i] in names;
    }
  }

  lemma HeadOfCombo(names: seq<string>, combo: seq<string>)
    requires names != [] && combo != [] && Increasing(names, Lex)
    ensures Increasing(combo, Lex) && (forall n <- combo :: n in names) <==>
            || (combo[0] == names[0] && Increasing(combo[1..], Lex) && forall n <- combo[1..] :: n in names[1..])
            || (Increasing(combo, Lex) && forall n <- combo :: n in names[1..])
  {
    assert combo == [combo[0]] + combo[1..] && names == [names[0]] + names[1..];
    if Increasing(combo, Lex) && forall n <- combo :: n in names {
      TailOfCombo(names, combo);
    }
    LexIsTotalOrder();
    if combo[0] == names[0] && Increasing(combo[1..], Lex) && forall n <- combo[1..] :: n in names[1..] {
      forall i, j | 0 <= i < j < |combo| ensures Lex(combo[i], combo[j]) {
        assert combo[j] in combo[1..];
      }
    }
  }

  /** The keys of the subsets below a given size. */
  function KeysBelow(capabilities: set<string>, r: nat): set<string> {
    set names | names <= capabilities && |names| < r :: Encode(names)
  }

  function KeysOf(combos: seq<seq<string>>): set<string> {
    set combo | combo in combos :: CapabilityKey(combo)
  }

  lemma KeysOfSnoc(combos: seq<seq<string>>, i: nat)
    requires i < |combos|
    ensures KeysOf(combos[..i + 1]) == KeysOf(combos[..i]) + {CapabilityKey(combos[i])}
  {
    assert combos[..i + 1] == combos[..i] + [combos[i]];
  }

  /** `satisfiable_capability_keys`: for every size, for every combination, add its key; then sort. */
  method SatisfiableCapabilityKeys(workerCapabilities: seq<string>) returns (listed: seq<string>)
    ensures Increasing(listed, Lex)
    ensures Elements(listed) == SatisfiableKeys(workerCapabilities)
  {
    var caps := Sorted(Normalised(workerCapabilities));
    var keys: set<string> := {};
    for r := 0 to |caps| + 1
      invariant keys == KeysBelow(Normalised(workerCapabilities), r)
    {
      keys := AddKeys(keys, Combinations(caps, r));
      SizeClass(workerCapabilities, r);
    }
    AllSizes(Normalised(workerCapabilities));
    listed := Sorted(keys);
  }

  /** The inner loop: one key per combination. */
  method AddKeys(before: set<string>, combos: seq<seq<string>>) returns (keys: set<string>)
    ensures keys == before + KeysOf(combos)
  {
    keys := before;
    for i := 0 to |combos|
      invariant keys == before + KeysOf(combos[..i])
    {
      KeysOfSnoc(combos, i);
      keys := keys + {CapabilityKey(combos[i])};
    }
    assert combos[..|combos|] == combos;
  }

  lemma AllSizes(capabilities: set<string>)
    ensures KeysBelow(capabilities, |capabilities| + 1) == SubsetKeys(capabilities)
  {
    forall names | names <= capabilities ensures |names| < |capabilities| + 1 {
      SubsetSize(names, capabilities);
    }
  }

  lemma ComboKey(worker: seq<string>, r: nat, combo: seq<string>)
    requires combo in Combinations(Sorted(Normalised(worker)), r)
    ensures Elements(combo) <= Normalised(worker) && |Elements(combo)| == r
    ensures CapabilityKey(combo) == Encode(Elements(combo))
  {
    var caps := Sorted(Normalised(worker));
    NormalisedAreClean(worker);
    CombinationsAreSubsets(caps, r, combo);
    CleanAreKept(combo);
    LexIsTotalOrder();
    IncreasingIsAscending(combo, Lex);
  }

  lemma SubsetHasCombo(worker: seq<string>, names: set<string>)
    requires names <= Normalised(worker)
    ensures Encode(names) in KeysOf(Combinations(Sorted(Normalised(worker)), |names|))
  {
    var caps := Sorted(Normalised(worker));
    NormalisedAreClean(worker);
    var combo := Sorted(names);
    CombinationsAreSubsets(caps, |names|, combo);
    CleanAreKept(combo);
    assert CapabilityKey(combo) == Encode(names);
  }

  lemma SizeClass(worker: seq<string>, r: nat)
    ensures KeysBelow(Normalised(worker), r) + KeysOf(Combinations(Sorted(Normalised(worker)), r))
            == KeysBelow(Normalised(worker), r + 1)
  {
    var combos := Combinations(Sorted(Normalised(worker)), r);
    forall combo | combo in combos ensures CapabilityKey(combo) in KeysBelow(Normalised(worker), r + 1) {
      ComboKey(worker, r, combo);
    }
    forall names | names <= Normalised(worker) && |names| == r ensures Encode(names) in KeysOf(combos) {
      SubsetHasCombo(worker, names);
    }
  }
}
