/**
 * The output-device selection of `onEnumDevices` in dtmf.js: keep the
 * devices of kind "audiooutput", keep those whose lower-cased label contains
 * the mask (the mask itself is not lower-cased), take the last survivor.
 */
module Devices {
  import opened Wrappers

  /** A MediaDeviceInfo as enumerateDevices reports it (`label` is a Dafny keyword, hence deviceLabel). */
  datatype Device = Device(kind: string, deviceLabel: string, deviceId: string)

  const AudioOutput: string := "audiooutput"

  /** `toLowerCase` on one character, for the ASCII letters. */
  function LowerChar(c: char): (r: char)
    ensures 'A' <= c <= 'Z' ==> r as int == c as int + 32
    ensures !('A' <= c <= 'Z') ==> r == c
    ensures !('A' <= r <= 'Z')
  {
    if 'A' <= c <= 'Z' then (c as int + 32) as char else c
  }

  /** `toLowerCase`, for the ASCII letters. */
  function ToLower(s: string): (r: string)
    ensures |r| == |s|
    ensures forall i :: 0 <= i < |s| ==> r[i] == LowerChar(s[i])
    ensures forall i :: 0 <= i < |r| ==> !('A' <= r[i] <= 'Z')
  {
    seq(|s|, i requires 0 <= i < |s| => LowerChar(s[i]))
  }

  /** Lower-casing twice is lower-casing once. */
  lemma ToLowerIdempotent(s: string)
    ensures ToLower(ToLower(s)) == ToLower(s)
  {
    var t := ToLower(s);
    forall i | 0 <= i < |t| ensures ToLower(t)[i] == t[i] {
      assert !('A' <= t[i] <= 'Z');
    }
  }

  /** `m` occurs in `s` starting at index i. */
  predicate OccursAt(s: string, m: string, i: nat)
  {
    i + |m| <= |s| && s[i..i + |m|] == m
  }

  /** `s.indexOf(m, from)`: the first occurrence at or after `from`, or -1. */
  function IndexOfFrom(s: string, m: string, from: nat): (r: int)
    requires from <= |s|
    ensures r == -1 || from <= r <= |s| - |m|
    decreases |s| - from
  {
    if from + |m| > |s| then -1
    else if s[from..from + |m|] == m then from
    else if from == |s| then -1
    else IndexOfFrom(s, m, from + 1)
  }

  /** `indexOf` returns the first occurrence at or after `from`, and -1 exactly when there is none. */
  lemma {:induction false} IndexOfFromSpec(s: string, m: string, from: nat)
    requires from <= |s|
    ensures var r := IndexOfFrom(s, m, from);
      && (r == -1 || (from <= r && OccursAt(s, m, r)))
      && (r == -1 ==> forall i :: from <= i <= |s| ==> !OccursAt(s, m, i))
      && (r != -1 ==> forall i :: from <= i < r ==> !OccursAt(s, m, i))
    decreases |s| - from
  {
    if from + |m| > |s| {
    } else if s[from..from + |m|] == m {
    } else if from == |s| {
    } else {
      IndexOfFromSpec(s, m, from + 1);
    }
  }

  /** `s.indexOf(m)`. */
  function IndexOf(s: string, m: string): int
  {
    IndexOfFrom(s, m, 0)
  }

  /** The mask test `d.deviceLabel.toLowerCase().indexOf(mask) != -1`. */
  predicate LabelMatches(d: Device, mask: string)
  {
    IndexOf(ToLower(d.deviceLabel), mask) != -1
  }

  /** A device that survives both filters. */
  predicate IsCandidate(d: Device, mask: string)
  {
    d.kind == AudioOutput && LabelMatches(d, mask)
  }

  /** The mask test succeeds exactly when the mask occurs somewhere in the lower-cased label. */
  lemma LabelMatchesIff(d: Device, mask: string)
    ensures LabelMatches(d, mask) <==> exists i :: 0 <= i <= |d.deviceLabel| && OccursAt(ToLower(d.deviceLabel), mask, i)
  {
    IndexOfFromSpec(ToLower(d.deviceLabel), mask, 0);
  }

  /** `s.filter(p)`: the elements satisfying p, in order. */
  function Filter<T>(s: seq<T>, p: T -> bool): seq<T>
  {
    if s == [] then []
    else
      var last := s[|s| - 1];
      Filter(s[..|s| - 1], p) + (if p(last) then [last] else [])
  }

  /** No element of s satisfies p. */
  predicate NoneSatisfy<T>(s: seq<T>, p: T -> bool)
  {
    forall i :: 0 <= i < |s| ==> !p(s[i])
  }

  /** Position i satisfies p and no later position does. */
  predicate IsLastSatisfying<T>(s: seq<T>, p: T -> bool, i: int)
  {
    0 <= i < |s| && p(s[i]) && forall j :: i < j < |s| ==> !p(s[j])
  }

  /** A filter is empty exactly when nothing satisfies its predicate. */
  lemma {:induction false} FilterEmpty<T>(s: seq<T>, p: T -> bool)
    ensures Filter(s, p) == [] <==> NoneSatisfy(s, p)
  {
    if s != [] {
      var n := |s|;
      var init := s[..n - 1];
      FilterEmpty(init, p);
      assert Filter(s, p) == Filter(init, p) + (if p(s[n - 1]) then [s[n - 1]] else []);
      if NoneSatisfy(init, p) && !p(s[n - 1]) {
        forall i | 0 <= i < n ensures !p(s[i]) {
          if i < n - 1 {
            assert s[i] == init[i];
          }
        }
      } else if !NoneSatisfy(init, p) {
        var i :| 0 <= i < |init| && p(init[i]);
        assert s[i] == init[i];
      }
    }
  }

  /** The last element of a non-empty filter (what `pop()` returns) is the last satisfying element of the input. */
  lemma {:induction false} FilterLast<T>(s: seq<T>, p: T -> bool) returns (i: int)
    requires Filter(s, p) != []
    ensures IsLastSatisfying(s, p, i) && s[i] == Filter(s, p)[|Filter(s, p)| - 1]
  {
    var n := |s|;
    var init := s[..n - 1];
    var f := Filter(s, p);
    assert f == Filter(init, p) + (if p(s[n - 1]) then [s[n - 1]] else []);
    if p(s[n - 1]) {
      i := n - 1;
    } else {
      assert f == Filter(init, p);
      i := FilterLast(init, p);
      forall j | i < j < n ensures !p(s[j]) {
        if j < n - 1 {
          assert s[j] == init[j];
        }
      }
      assert IsLastSatisfying(s, p, i);
    }
  }

  /** Filtering by p and then by q is filtering once by their conjunction r. */
  lemma {:induction false} FilterFilter<T>(s: seq<T>, p: T -> bool, q: T -> bool, r: T -> bool)
    requires forall x :: r(x) == (p(x) && q(x))
    ensures Filter(Filter(s, p), q) == Filter(s, r)
  {
    if s != [] {
      var n := |s|;
      var init := s[..n - 1];
      var last := s[n - 1];
      FilterFilter(init, p, q, r);
      var fp := Filter(s, p);
      if p(last) {
        assert fp[..|fp| - 1] == Filter(init, p);
      } else {
        assert fp == Filter(init, p);
      }
    }
  }

  /** A filter keeps only elements of its input that satisfy its predicate. */
  lemma {:induction false} FilterSound<T>(s: seq<T>, p: T -> bool)
    ensures forall x :: x in Filter(s, p) ==> x in s && p(x)
  {
    if s != [] {
      var n := |s|;
      var init := s[..n - 1];
      FilterSound(init, p);
      assert Filter(s, p) == Filter(init, p) + (if p(s[n - 1]) then [s[n - 1]] else []);
      assert s == init + [s[n - 1]];
    }
  }

  /** The device is an audio output. */
  predicate IsOutput(d: Device)
  {
    d.kind == AudioOutput
  }

  /** `list.filter(({kind}) => kind === 'audiooutput')`. */
  function Outputs(list: seq<Device>): (r: seq<Device>)
    ensures forall d :: d in r ==> d in list && IsOutput(d)
  {
    FilterSound(list, IsOutput);
    Filter(list, IsOutput)
  }

  /** The callback `(d) => d.label.toLowerCase().indexOf(mask) != -1`. */
  function MaskTest(mask: string): Device -> bool
  {
    d => LabelMatches(d, mask)
  }

  /** Both filters' tests at once. */
  function CandidateTest(mask: string): Device -> bool
  {
    d => IsCandidate(d, mask)
  }

  /** `output.filter((d) => d.label.toLowerCase().indexOf(mask) != -1)`. */
  function Matching(list: seq<Device>, mask: string): (r: seq<Device>)
    ensures forall d :: d in r ==> d in list && LabelMatches(d, mask)
  {
    FilterSound(list, MaskTest(mask));
    Filter(list, MaskTest(mask))
  }

  /** The devices both filters keep, in enumeration order. */
  function Candidates(list: seq<Device>, mask: string): seq<Device>
  {
    Matching(Outputs(list), mask)
  }

  /** No device in the list survives both filters. */
  predicate NoCandidate(list: seq<Device>, mask: string)
  {
    forall i :: 0 <= i < |list| ==> !IsCandidate(list[i], mask)
  }

  /** Position i holds a candidate and no later position does. */
  predicate IsLastCandidate(list: seq<Device>, mask: string, i: int)
  {
    0 <= i < |list| && IsCandidate(list[i], mask)
    && forall j :: i < j < |list| ==> !IsCandidate(list[j], mask)
  }

  /**
   * The survivors of the two filters are empty exactly when no device is a
   * candidate; otherwise the last survivor is the last candidate in
   * enumeration order.
   */
  lemma CandidatesLast(list: seq<Device>, mask: string)
    ensures Candidates(list, mask) == [] <==> NoCandidate(list, mask)
    ensures Candidates(list, mask) != [] ==>
              exists i :: IsLastCandidate(list, mask, i) && list[i] == Candidates(list, mask)[|Candidates(list, mask)| - 1]
  {
    var c := CandidateTest(mask);
    FilterFilter(list, IsOutput, MaskTest(mask), c);
    FilterEmpty(list, c);
    var f := Candidates(list, mask);
    assert f == Filter(list, c);
    assert NoneSatisfy(list, c) <==> NoCandidate(list, mask);
    if f != [] {
      var i := FilterLast(list, c);
      assert IsLastCandidate(list, mask, i);
    }
  }

  const NotFoundPrefix: string := "output device not found for mask: "

  /**
   * The error message thrown when nothing matches and the default device is
   * not allowed: the mask can be read back after the fixed prefix.
   */
  function NotFoundMessage(mask: string): (r: string)
    ensures |r| == |NotFoundPrefix| + |mask|
    ensures r[..|NotFoundPrefix|] == NotFoundPrefix && r[|NotFoundPrefix|..] == mask
  {
    NotFoundPrefix + mask
  }

  /**
   * The device rule of `onEnumDevices`: the last candidate; when there is
   * none, an error unless the default device is allowed, in which case no
   * device (`undefined`).
   */
  function SelectDevice(list: seq<Device>, mask: string, useDefault: bool): (r: Result<Option<Device>, string>)
    ensures r.Err? <==> !useDefault && NoCandidate(list, mask)
    ensures r.Err? ==> r.error == NotFoundMessage(mask)
    ensures r == Ok(None) <==> useDefault && NoCandidate(list, mask)
    ensures r.Ok? && r.value.Some? ==> exists i :: IsLastCandidate(list, mask, i) && list[i] == r.value.value
  {
    CandidatesLast(list, mask);
    var c := Candidates(list, mask);
    if c == [] then
      assert NoCandidate(list, mask);
      if useDefault then Ok(None) else Err(NotFoundMessage(mask))
    else
      assert !NoCandidate(list, mask);
      assert exists i :: IsLastCandidate(list, mask, i) && list[i] == c[|c| - 1];
      Ok(Some(c[|c| - 1]))
  }

  /** The last candidate is unique, so the selected device is determined by the list. */
  lemma LastCandidateUnique(list: seq<Device>, mask: string, i: int, j: int)
    requires IsLastCandidate(list, mask, i) && IsLastCandidate(list, mask, j)
    ensures i == j
  {
  }

  /** With outputs "Speakers", "CABLE Input", "Cable Output" and mask "cable", "Cable Output" is chosen. */
  lemma SelectCableOutput()
    ensures var list := [Device(AudioOutput, "Speakers", "a"), Device(AudioOutput, "CABLE Input", "b"), Device(AudioOutput, "Cable Output", "c")];
      SelectDevice(list, "cable", false) == Ok(Some(list[2]))
  {
    var list := [Device(AudioOutput, "Speakers", "a"), Device(AudioOutput, "CABLE Input", "b"), Device(AudioOutput, "Cable Output", "c")];
    assert ToLower("Cable Output")[0..5] == "cable";
    assert OccursAt(ToLower(list[2].deviceLabel), "cable", 0);
    assert IsCandidate(list[2], "cable");
    assert IsLastCandidate(list, "cable", 2);
  }
}
