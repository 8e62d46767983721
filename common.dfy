/** Values shared by the backend validators and the React pages: optional
    fields, the truthiness tests JavaScript and Python apply to them, the
    outcome of a Frappe `validate` hook, and the list filter both languages use. */
module Common {

  /** A field that may be null/undefined (JavaScript) or None (Python). */
  datatype Option<T> = None | Some(value: T) {

    /** JavaScript `x ?? d` and Python `x if x is not None else d`. */
    function GetOr(default: T): T {
      match this
      case Some(v) => v
      case None => default
    }

    /** JavaScript `x ?? y` when `y` may itself be nullish. */
    function OrElse(other: Option<T>): Option<T> {
      if Some? then this else other
    }
  }

  /** An argument of a whitelisted backend method: left out of the request,
      or passed with a (possibly null) value. */
  datatype Argument<T> = Omitted | Passed(value: T)

  /** Truthiness of an optional string, the same in Python and JavaScript:
      present and not empty. */
  predicate Truthy(s: Option<string>) {
    s.Some? && s.value != ""
  }

  /** Truthiness of an optional number: present and not zero. */
  predicate TruthyInt(n: Option<int>) {
    n.Some? && n.value != 0
  }

  /** What a framework exception other than `frappe.throw` is. */
  datatype Exception =
    | DoesNotExist   // frappe.get_doc on a missing document
    | TypeError      // Python arithmetic or comparison with None, or a missing argument

  /** The outcome of a `validate` hook: the save goes ahead, `frappe.throw`
      stops it with a user-facing message, or another exception escapes. */
  datatype Verdict = Pass | Fail(message: string) | Raise(exception: Exception)

  /** `r` keeps some of the elements of `s`, in their original order. */
  predicate IsSubsequence<T(==)>(r: seq<T>, s: seq<T>)
    decreases |s|
  {
    r == [] || (s != [] && ((r[0] == s[0] && IsSubsequence(r[1..], s[1..])) || IsSubsequence(r, s[1..])))
  }

  /** Every sequence is a subsequence of itself. */
  lemma {:induction false} SubsequenceReflexive<T>(s: seq<T>)
    ensures IsSubsequence(s, s)
    decreases |s|
  {
    if s != [] {
      SubsequenceReflexive(s[1..]);
    }
  }

  /** `Array.prototype.filter`: the elements of `s` that satisfy `keep`, in order. */
  function Filter<T(==,!new)>(s: seq<T>, keep: T -> bool): (r: seq<T>)
    ensures |r| <= |s|
    ensures forall x :: x in r <==> x in s && keep(x)
    ensures IsSubsequence(r, s)
  {
    if s == [] then []
    else
      var rest := Filter(s[1..], keep);
      assert forall x :: x in s <==> x == s[0] || x in s[1..];
      if keep(s[0]) then
        assert ([s[0]] + rest)[1..] == rest;
        [s[0]] + rest
      else
        rest
  }

  /** Filtering keeps every element exactly when every element passes. */
  lemma {:induction false} FilterAllKept<T(!new)>(s: seq<T>, keep: T -> bool)
    requires forall x :: x in s ==> keep(x)
    ensures Filter(s, keep) == s
  {
    if s != [] {
      assert forall x :: x in s[1..] ==> x in s;
      FilterAllKept(s[1..], keep);
    }
  }

  /** Filtering distributes over concatenation. */
  lemma {:induction false} FilterAppend<T(!new)>(s: seq<T>, t: seq<T>, keep: T -> bool)
    ensures Filter(s + t, keep) == Filter(s, keep) + Filter(t, keep)
  {
    if s == [] {
      assert s + t == t;
    } else {
      assert (s + t)[1..] == s[1..] + t;
      FilterAppend(s[1..], t, keep);
    }
  }

  /** Two tests that agree on every element of `s` keep the same elements. */
  lemma {:induction false} FilterCongruent<T(!new)>(s: seq<T>, keep: T -> bool, keep': T -> bool)
    requires forall x :: x in s ==> keep(x) == keep'(x)
    ensures Filter(s, keep) == Filter(s, keep')
  {
    if s != [] {
      assert forall x :: x in s[1..] ==> x in s;
      FilterCongruent(s[1..], keep, keep');
    }
  }

  /** Every element is kept by a test or by its negation, never both. */
  lemma {:induction false} FilterPartition<T(!new)>(s: seq<T>, keep: T -> bool)
    ensures |Filter(s, keep)| + |Filter(s, x => !keep(x))| == |s|
  {
    if s != [] {
      FilterPartition(s[1..], keep);
    }
  }
}
