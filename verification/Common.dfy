// Small vocabulary shared by every module of the project.
module Common {

  datatype Option<+T> = None | Some(value: T)

  datatype Result<+T, +E> = Ok(value: T) | Err(error: E)

  ghost predicate NoDups<T>(s: seq<T>) {
    forall i, j | 0 <= i < j < |s| :: s[i] != s[j]
  }

  function SetOf<T>(s: seq<T>): (r: set<T>) {
    set x | x in s
  }

  predicate HasPrefix(s: string, prefix: string) {
    |prefix| <= |s| && s[..|prefix|] == prefix
  }

  // The elements of s that satisfy p, in order.
  function Filter<T>(s: seq<T>, p: T -> bool): (r: seq<T>) {
    if s == [] then [] else (if p(s[0]) then [s[0]] else []) + Filter(s[1..], p)
  }

  lemma {:induction false} FilterAppend<T>(s: seq<T>, x: T, p: T -> bool)
    ensures Filter(s + [x], p) == Filter(s, p) + if p(x) then [x] else []
  {
    if s == [] {
      assert s + [x] == [x];
    } else {
      FilterAppend(s[1..], x, p);
      assert (s + [x])[1..] == s[1..] + [x];
    }
  }

  function MapValues<K, A, B>(f: A -> B, m: map<K, A>): (r: map<K, B>) {
    map k | k in m :: f(m[k])
  }

  lemma MapValuesOneMore<K, A, B>(f: A -> B, m: map<K, A>, k: K, a: A)
    ensures MapValues(f, m[k := a]) == MapValues(f, m)[k := f(a)]
  {
  }
}
