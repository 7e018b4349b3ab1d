/** Small shared vocabulary: optional values, outcomes, JSON numbers and header texts. */
module Common {

  datatype Option<+T> = None | Some(value: T)

  /** The result of a command: a value, or a refusal that leaves the caller's state alone. */
  datatype Result<+T> = Ok(value: T) | Refused

  /** A parsed JSON or double value: a finite number, or NaN / an infinity. */
  datatype Num = Finite(value: real) | NotFinite

  predicate Within(n: Num, low: real, high: real) {
    n.Finite? && low <= n.value <= high
  }

  /** InputLimits.required: present, not blank, and short enough. */
  predicate Required(text: Option<string>, max: nat) {
    text.Some? && |text.value| <= max && exists i :: 0 <= i < |text.value| && text.value[i] > ' '
  }

  lemma RequiredIsPresent(text: Option<string>, max: nat)
    ensures Required(text, max) ==> text.Some?
  {
  }

  // ---------------------------------------------------------------- sequences, from the back

  /** Strictly increasing, stated neighbour by neighbour. */
  predicate Increasing(s: seq<int>) {
    |s| < 2 || (s[|s| - 2] < s[|s| - 1] && Increasing(s[..|s| - 1]))
  }

  lemma {:induction false} IncreasingAt(s: seq<int>, i: nat, j: nat)
    requires Increasing(s) && i < j < |s|
    ensures s[i] < s[j]
  {
    if j == |s| - 1 {
      if i < j - 1 { IncreasingAt(s[..|s| - 1], i, j - 1); }
    } else {
      IncreasingAt(s[..|s| - 1], i, j);
    }
  }

  function Elements<T(==)>(s: seq<T>): set<T> {
    if s == [] then {} else Elements(s[..|s| - 1]) + {s[|s| - 1]}
  }

  lemma {:induction false} ElementsMembers<T>(s: seq<T>, x: T)
    ensures x in Elements(s) <==> x in s
  {
    if s != [] {
      ElementsMembers(s[..|s| - 1], x);
      assert s == s[..|s| - 1] + [s[|s| - 1]];
    }
  }
}
