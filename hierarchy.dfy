/**
 * The command hierarchy that `convert_command_set_to_map` builds, stated
 * independently of the loop that builds it.
 *
 * A name's candidate keys are the joins of its first i dash-separated pieces,
 * for i from 0 up to (not including) the number of pieces: for `inc-a-b-c` they
 * are "", "inc", "inc-a" and "inc-a-b". A set of root keys is consistent when a
 * name is a root exactly if none of its strictly shorter candidates is a root;
 * any other name is attached to its first (that is, shortest) candidate that is
 * a root. There is exactly one consistent set for any set of names.
 */
module Hierarchy {
  import opened Wrappers
  import opened RustStr

  /** The keys `find_key_from_command` tries, in the order it tries them: the empty
      text, then the text before each dash of the name, left to right. */
  function Candidates(name: string): (r: seq<string>)
    ensures |r| >= 1 && r[0] == ""
    decreases |name|
  {
    if |name| == 0 then [""]
    else
      var init := name[..|name| - 1];
      if name[|name| - 1] == '-' then Candidates(init) + [init] else Candidates(init)
  }

  /** Every candidate after the first is a strict prefix of the name followed by a dash,
      and they grow strictly longer. */
  lemma {:induction false} CandidatesArePrefixes(name: string)
    ensures forall i :: 0 < i < |Candidates(name)| ==>
              && |Candidates(name)[i]| < |name|
              && name[..|Candidates(name)[i]|] == Candidates(name)[i]
              && name[|Candidates(name)[i]|] == '-'
    ensures forall i, j :: 0 < i < j < |Candidates(name)| ==> |Candidates(name)[i]| < |Candidates(name)[j]|
    decreases |name|
  {
    if |name| > 0 {
      var init := name[..|name| - 1];
      CandidatesArePrefixes(init);
      var c := Candidates(init);
      forall i | 0 < i < |c|
        ensures |c[i]| < |name| && name[..|c[i]|] == c[i] && name[|c[i]|] == '-'
      {
        assert name[..|c[i]|] == init[..|c[i]|];
        assert name[|c[i]|] == init[|c[i]|];
      }
      if name[|name| - 1] == '-' {
        var r := c + [init];
        assert r[|c|] == init && name[..|init|] == init;
        forall i, j | 0 < i < j < |r| ensures |r[i]| < |r[j]| {
          if j == |c| {
            assert |r[i]| < |init|;
          }
        }
      }
    }
  }

  /** Every candidate of a non-empty name is strictly shorter than it. */
  lemma CandidatesAreShorter(name: string)
    requires name != ""
    ensures forall c :: c in Candidates(name) ==> |c| < |name|
  {
    CandidatesArePrefixes(name);
    forall c | c in Candidates(name) ensures |c| < |name| {
      var i :| 0 <= i < |Candidates(name)| && Candidates(name)[i] == c;
    }
  }

  /** The candidates are exactly the joins of the first i pieces of `name.split("-")`,
      for every i below the number of pieces. */
  lemma {:induction false} CandidatesAreSplitPrefixes(name: string)
    ensures |Candidates(name)| == |Split(name, '-')|
    ensures forall i :: 0 <= i < |Candidates(name)| ==>
              Candidates(name)[i] == Join(Split(name, '-')[..i], '-')
    decreases |name|
  {
    var parts := Split(name, '-');
    if |name| == 0 {
      assert parts[..0] == [];
    } else {
      var init := name[..|name| - 1];
      var ch := name[|name| - 1];
      assert name == init + [ch];
      CandidatesAreSplitPrefixes(init);
      var old_ := Split(init, '-');
      SplitSnoc(init, ch, '-');
      forall i | 0 <= i < |old_| ensures parts[..i] == old_[..i] {
        assert forall j :: 0 <= j < i ==> parts[j] == old_[j];
      }
      if ch == '-' {
        assert parts[..|old_|] == old_;
        JoinSplit(init, '-');
      }
    }
  }

  /** A single character splits into two empty pieces when it is the separator, and into
      itself otherwise. */
  lemma SplitOneChar(c: char, sep: char)
    ensures Split([c], sep) == if c == sep then ["", ""] else [[c]]
  {
    assert [c][1..] == "";
    if c != sep {
      assert [c] + "" == [c];
    }
  }

  /** How `split` changes when one character is appended. */
  lemma {:induction false} SplitSnoc(s: string, c: char, sep: char)
    ensures var old_ := Split(s, sep);
            var new_ := Split(s + [c], sep);
            if c == sep then new_ == old_ + [""]
            else new_ == old_[..|old_| - 1] + [old_[|old_| - 1] + [c]]
    decreases |s|
  {
    var w := s + [c];
    if |s| == 0 {
      assert w == [c];
      SplitOneChar(c, sep);
    } else {
      var u := s[1..];
      assert w[0] == s[0] && w[1..] == u + [c];
      SplitSnoc(u, c, sep);
      if s[0] == sep {
        SplitSnocAfterSeparator(Split(u, sep), Split(u + [c], sep), c, sep);
      } else {
        SplitSnocInWord(s[0], Split(u, sep), Split(u + [c], sep), c, sep);
      }
    }
  }

  /** The step of `SplitSnoc` when the text starts with the separator: an empty piece in
      front of the pieces of the rest. */
  lemma SplitSnocAfterSeparator(t: seq<string>, t2: seq<string>, c: char, sep: char)
    requires |t| >= 1
    requires if c == sep then t2 == t + [""] else t2 == t[..|t| - 1] + [t[|t| - 1] + [c]]
    ensures var old_ := [""] + t;
            var new_ := [""] + t2;
            if c == sep then new_ == old_ + [""]
            else new_ == old_[..|old_| - 1] + [old_[|old_| - 1] + [c]]
  {
    var old_ := [""] + t;
    if c != sep {
      assert old_[..|old_| - 1] == [""] + t[..|t| - 1];
    }
  }

  /** The step of `SplitSnoc` when the text starts with another character: that character
      in front of the first piece of the rest. */
  lemma SplitSnocInWord(head: char, t: seq<string>, t2: seq<string>, c: char, sep: char)
    requires |t| >= 1
    requires if c == sep then t2 == t + [""] else t2 == t[..|t| - 1] + [t[|t| - 1] + [c]]
    ensures var old_ := [[head] + t[0]] + t[1..];
            var new_ := [[head] + t2[0]] + t2[1..];
            if c == sep then new_ == old_ + [""]
            else new_ == old_[..|old_| - 1] + [old_[|old_| - 1] + [c]]
  {
    var old_ := [[head] + t[0]] + t[1..];
    if c == sep {
      assert t2[0] == t[0] && t2[1..] == t[1..] + [""];
    } else if |t| == 1 {
      assert t2 == [t[0] + [c]];
      assert [head] + (t[0] + [c]) == ([head] + t[0]) + [c];
    } else {
      assert t2[0] == t[0] && t2[1..] == t[1..|t| - 1] + [t[|t| - 1] + [c]];
      assert old_[..|old_| - 1] == [[head] + t[0]] + t[1..|t| - 1];
    }
  }

  /** A name with no dash has the empty text as its only candidate. */
  lemma {:induction false} NoDashOnlyEmptyCandidate(name: string)
    requires '-' !in name
    ensures Candidates(name) == [""]
    decreases |name|
  {
    if |name| > 0 {
      var init := name[..|name| - 1];
      assert forall c :: c in init ==> c in name;
      NoDashOnlyEmptyCandidate(init);
      assert name[|name| - 1] in name;
    }
  }

  /** Text without a dash adds no candidate. */
  lemma {:induction false} CandidatesAppendNoDash(s: string, t: string)
    requires '-' !in t
    ensures Candidates(s + t) == Candidates(s)
    decreases |t|
  {
    if |t| > 0 {
      var t' := t[..|t| - 1];
      assert (s + t)[..|s + t| - 1] == s + t';
      assert (s + t)[|s + t| - 1] == t[|t| - 1];
      assert t[|t| - 1] in t;
      assert forall c :: c in t' ==> c in t;
      CandidatesAppendNoDash(s, t');
    } else {
      assert s + t == s;
    }
  }

  /** A trailing dash adds the text before it as the last candidate. */
  lemma CandidatesAppendDash(s: string)
    ensures Candidates(s + "-") == Candidates(s) + [s]
  {
    assert (s + "-")[..|s|] == s;
  }

  /** The index of the first candidate that is a key, if any. */
  function FirstIn(cands: seq<string>, keys: set<string>): (r: Option<nat>)
    ensures r.Some? ==> r.value < |cands| && cands[r.value] in keys
                        && forall j :: 0 <= j < r.value ==> cands[j] !in keys
    ensures r.None? ==> forall j :: 0 <= j < |cands| ==> cands[j] !in keys
    decreases |cands|
  {
    if |cands| == 0 then None
    else if cands[0] in keys then Some(0)
    else match FirstIn(cands[1..], keys)
      case None => None
      case Some(k) => Some(k + 1)
  }

  /** What `find_key_from_command` returns for a name against a map with these keys. */
  function FindKey(name: string, keys: set<string>): (r: Option<string>)
    ensures r.Some? ==> r.value in keys && r.value in Candidates(name)
    ensures r.None? ==> forall c :: c in Candidates(name) ==> c !in keys
  {
    match FirstIn(Candidates(name), keys)
    case None => None
    case Some(i) => Some(Candidates(name)[i])
  }

  lemma {:induction false} FirstInAgrees(cands: seq<string>, k1: set<string>, k2: set<string>)
    requires forall c :: c in cands ==> (c in k1 <==> c in k2)
    ensures FirstIn(cands, k1) == FirstIn(cands, k2)
    decreases |cands|
  {
    if |cands| > 0 && cands[0] !in k1 {
      FirstInAgrees(cands[1..], k1, k2);
    }
  }

  /** Two key sets that agree on a name's candidates give the same answer. */
  lemma FindKeyAgrees(name: string, k1: set<string>, k2: set<string>)
    requires forall c :: c in Candidates(name) ==> (c in k1 <==> c in k2)
    ensures FindKey(name, k1) == FindKey(name, k2)
  {
    FirstInAgrees(Candidates(name), k1, k2);
  }

  /** The root a name is attached to among the root keys `roots`; None when it is a
      root itself. Only strictly shorter keys can claim a name. */
  function Attach(n: string, roots: set<string>): Option<string> {
    if n == "" then None else FindKey(n, roots)
  }

  /** The root that claims a name is a strictly shorter key, either empty or followed by
      a dash in the name, and no shorter candidate of the name is a key. */
  lemma AttachedToShortestRoot(n: string, roots: set<string>)
    requires Attach(n, roots).Some?
    ensures var k := Attach(n, roots).value;
            && k in roots && |k| < |n|
            && (k == "" || StartsWith(n, k + "-"))
            && forall c :: c in Candidates(n) && |c| < |k| ==> c !in roots
  {
    var k := Attach(n, roots).value;
    var cs := Candidates(n);
    CandidatesArePrefixes(n);
    var i := FirstIn(cs, roots).value;
    assert cs[i] == k && k in roots;
    if i > 0 {
      assert |k| < |n| && n[..|k|] == k && n[|k|] == '-';
      assert n[..|k| + 1] == n[..|k|] + [n[|k|]];
    }
    forall c | c in cs && |c| < |k| ensures c !in roots {
      var j :| 0 <= j < |cs| && cs[j] == c;
      assert j < i;
    }
  }

  /** Adding a key no shorter than a name does not change what the name is attached to. */
  lemma AttachIgnoresLongerKey(n: string, roots: set<string>, longer: string)
    requires |longer| >= |n|
    ensures Attach(n, roots + {longer}) == Attach(n, roots)
  {
    if n != "" {
      CandidatesAreShorter(n);
      FindKeyAgrees(n, roots + {longer}, roots);
    }
  }

  /** A consistent choice of root keys for a set of names: the keys are names, and a
      name is a key exactly when no key claims it. */
  predicate ValidRoots(names: set<string>, roots: set<string>) {
    && roots <= names
    && forall n :: n in names ==> (n in roots <==> Attach(n, roots).None?)
  }

  /** There is only one consistent choice of root keys, so which names become roots does
      not depend on the order in which equally long names are processed. */
  lemma RootsAreUnique(names: set<string>, r1: set<string>, r2: set<string>)
    requires ValidRoots(names, r1) && ValidRoots(names, r2)
    ensures r1 == r2
  {
    forall n | n in names ensures n in r1 <==> n in r2 {
      RootsAgreeUpTo(names, r1, r2, |n|);
    }
  }

  lemma {:induction false} RootsAgreeUpTo(names: set<string>, r1: set<string>, r2: set<string>, len: nat)
    requires ValidRoots(names, r1) && ValidRoots(names, r2)
    ensures forall n :: n in names && |n| <= len ==> (n in r1 <==> n in r2)
    decreases len
  {
    if len > 0 {
      RootsAgreeUpTo(names, r1, r2, len - 1);
    }
    forall n | n in names && |n| == len ensures n in r1 <==> n in r2 {
      if n != "" {
        CandidatesAreShorter(n);
        forall c | c in Candidates(n) ensures c in r1 <==> c in r2 {
          assert |c| < |n|;
        }
        FindKeyAgrees(n, r1, r2);
      }
    }
  }

  /** A name without a dash is never claimed, unless the empty name is itself a key. */
  lemma NoDashNameIsRoot(n: string, roots: set<string>)
    requires '-' !in n && "" !in roots
    ensures Attach(n, roots).None?
  {
    NoDashOnlyEmptyCandidate(n);
  }
}
