/** Claim keys: the names under which reservations are written and read back. */
module Keys {

  const SLASH := '/'

  /** The number of times `sep` occurs in `s`. */
  function Occurrences(s: string, sep: char): nat {
    if s == "" then 0 else (if s[0] == sep then 1 else 0) + Occurrences(s[1..], sep)
  }

  /** Puts `sep` between the parts. */
  function Join(parts: seq<string>, sep: char): string
    requires parts != []
  {
    if |parts| == 1 then parts[0] else parts[0] + [sep] + Join(parts[1..], sep)
  }

  /** Go's `strings.Split` for a separator of one character. */
  function Split(s: string, sep: char): (parts: seq<string>)
    ensures |parts| == Occurrences(s, sep) + 1
    ensures forall i | 0 <= i < |parts| :: sep !in parts[i]
    ensures Join(parts, sep) == s
  {
    if s == "" then [""]
    else
      var rest := Split(s[1..], sep);
      if s[0] == sep then
        assert ([""] + rest)[1..] == rest;
        [""] + rest
      else
        var parts := [[s[0]] + rest[0]] + rest[1..];
        assert parts[1..] == rest[1..];
        parts
  }

  function MakePVCKey(namespace: string, name: string): string {
    namespace + "/" + name
  }

  function SplitPVCKey(key: string): (string, string) {
    var parts := Split(key, SLASH);
    if |parts| == 2 then (parts[0], parts[1]) else ("", "")
  }

  lemma {:induction false} NoOccurrences(s: string, sep: char)
    ensures sep !in s <==> Occurrences(s, sep) == 0
  {
    if s != "" {
      NoOccurrences(s[1..], sep);
      assert s == [s[0]] + s[1..];
    }
  }

  lemma {:induction false} SplitAtSeparator(a: string, b: string, sep: char)
    requires sep !in a
    ensures Split(a + [sep] + b, sep) == [a] + Split(b, sep)
  {
    var s := a + [sep] + b;
    if a == "" {
      assert s[1..] == b;
    } else {
      assert s[1..] == a[1..] + [sep] + b;
      SplitAtSeparator(a[1..], b, sep);
      var rest := [a[1..]] + Split(b, sep);
      assert [s[0]] + rest[0] == a;
      assert rest[1..] == Split(b, sep);
    }
  }

  lemma {:induction false} SplitWithoutSeparator(a: string, sep: char)
    requires sep !in a
    ensures Split(a, sep) == [a]
  {
    NoOccurrences(a, sep);
    var parts := Split(a, sep);
    assert parts == [parts[0]];
  }

  /** A made key splits back into its parts exactly when both parts are free of slashes. */
  lemma SplitInvertsMake(namespace: string, name: string)
    ensures SplitPVCKey(MakePVCKey(namespace, name)) == (namespace, name)
            <==> SLASH !in namespace && SLASH !in name
  {
    var key := MakePVCKey(namespace, name);
    assert key == namespace + [SLASH] + name;
    if SLASH !in namespace && SLASH !in name {
      SplitAtSeparator(namespace, name, SLASH);
      SplitWithoutSeparator(name, SLASH);
    }
  }

  /** Conversely, a key with one slash is the key made from what it splits into. */
  lemma MakeInvertsSplit(key: string)
    requires Occurrences(key, SLASH) == 1
    ensures var (namespace, name) := SplitPVCKey(key);
            MakePVCKey(namespace, name) == key && SLASH !in namespace && SLASH !in name
  {
    var parts := Split(key, SLASH);
    assert Join(parts[1..], SLASH) == parts[1];
  }

  /** Slash-free namespaces (every Kubernetes namespace) make the key injective. */
  lemma MakeIsInjective(ns1: string, name1: string, ns2: string, name2: string)
    requires SLASH !in ns1 && SLASH !in ns2
    requires MakePVCKey(ns1, name1) == MakePVCKey(ns2, name2)
    ensures ns1 == ns2 && name1 == name2
  {
    assert ns1 + [SLASH] + name1 == ns2 + [SLASH] + name2;
    SplitAtSeparator(ns1, name1, SLASH);
    SplitAtSeparator(ns2, name2, SLASH);
    var parts := Split(ns1 + [SLASH] + name1, SLASH);
    assert parts[0] == ns1 && parts[0] == ns2;
  }

  /** A key with any other number of slashes splits into the pair that names no claim; of the keys with
      one slash only the slash alone does. */
  lemma OtherKeysSplitToNothing(key: string)
    ensures Occurrences(key, SLASH) != 1 ==> SplitPVCKey(key) == ("", "")
    ensures SplitPVCKey(key) == ("", "") ==> Occurrences(key, SLASH) != 1 || key == "/"
  {
    if Occurrences(key, SLASH) == 1 && SplitPVCKey(key) == ("", "") {
      MakeInvertsSplit(key);
    }
  }
}
