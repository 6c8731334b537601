// Picking the newest report file by name: the scripts filter a directory
// listing by prefix and suffix, sort it with `b.localeCompare(a)` (newest
// timestamp first, since the timestamp is part of the name) and take the
// first entry. The ordinal order `LexLe` stands in for `localeCompare`.

module ReportFiles {
  import opened Wrappers
  import opened Text
  import opened Seqs

  const CheckReportPrefix: string := "link-check-report-"
  const CheckReadablePrefix: string := "link-check-readable-"
  const AlternativesPrefix: string := "link-alternatives-"
  const AlternativesReadablePrefix: string := "link-alternatives-readable-"
  const Json: string := ".json"
  const Markdown: string := ".md"

  predicate Named(prefix: string, suffix: string, name: string)
  {
    StartsWith(name, prefix) && EndsWith(name, suffix)
  }

  function NamedAs(prefix: string, suffix: string): string -> bool
  {
    (name: string) => Named(prefix, suffix, name)
  }

  /** The first element of the list sorted in descending order. */
  function Greatest(names: seq<string>): (g: string)
    requires |names| > 0
    ensures g in names
  {
    if |names| == 1 then names[0]
    else
      var rest := Greatest(names[1..]);
      if LexLe(names[0], rest) then rest else names[0]
  }

  /** Nothing in the list sorts after its greatest element. */
  lemma {:induction false} GreatestIsMax(names: seq<string>)
    requires |names| > 0
    ensures forall n :: n in names ==> LexLe(n, Greatest(names))
  {
    if |names| > 1 {
      var rest := Greatest(names[1..]);
      GreatestIsMax(names[1..]);
      var g := Greatest(names);
      LexLeTotal(names[0], rest);
      forall n | n in names
        ensures LexLe(n, g)
      {
        if n == names[0] {
          LexLeTotal(n, n);
        } else {
          assert n in names[1..];
          if g != rest {
            LexLeTrans(n, rest, g);
          }
        }
      }
    } else {
      LexLeTotal(names[0], names[0]);
    }
  }

  /** The newest file of the given kind, or None when there is none. */
  function NewestByName(names: seq<string>, prefix: string, suffix: string): Option<string>
  {
    var matching := Filter(names, NamedAs(prefix, suffix));
    if matching == [] then None else Some(Greatest(matching))
  }

  /**
   * There is a newest file exactly when some name matches; it is then a
   * matching name and no matching name sorts after it.
   */
  lemma NewestByNameSpec(names: seq<string>, prefix: string, suffix: string)
    ensures var r := NewestByName(names, prefix, suffix);
      && (r.None? <==> forall n :: n in names ==> !Named(prefix, suffix, n))
      && (r.Some? ==> r.value in names && Named(prefix, suffix, r.value))
      && (r.Some? ==> forall n :: n in names && Named(prefix, suffix, n) ==> LexLe(n, r.value))
  {
    var p := NamedAs(prefix, suffix);
    var matching := Filter(names, p);
    forall n
      ensures n in matching <==> n in names && Named(prefix, suffix, n)
    {
      FilterMembership(names, p, n);
    }
    if matching != [] {
      GreatestIsMax(matching);
    }
  }
}
