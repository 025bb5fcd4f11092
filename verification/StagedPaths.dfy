/** The paths of a download inside the download directory: where it is staged and where it ends up. */
module StagedPaths {
  import opened Bytes
  import Decimal
  import DownloadQueue

  /** A path is the name of a file of the download directory. */
  type Path = Text

  /** What stands between the file name and the id in the path of a staged file. */
  function Marker(): Text {
    Ascii(".goreecloud-part-")
  }

  /** A finished file lies under its own name; until then it is staged beside it. */
  function StagedPath(name: Text, id: Text): Path {
    name + Marker() + id
  }

  /** An id of the form that the queue gives out. */
  predicate Numbered(id: Text) {
    var prefix := Ascii("download-");
    |id| > |prefix| && id[..|prefix|] == prefix && Decimal.AllDigits(id[|prefix|..])
  }

  lemma IdsAreNumbered(n: nat)
    ensures Numbered(DownloadQueue.IdOf(n))
  {
    var prefix, id := Ascii("download-"), DownloadQueue.IdOf(n);
    assert id[..|prefix|] == prefix;
    assert id[|prefix|..] == Decimal.Print(n);
  }

  /** A number ends a path after a sign that is no digit, so the path tells which number it is. */
  lemma LastNumber(a: Text, b: Text, m: Text, n: Text)
    requires a != [] && b != [] && !(0x30 <= a[|a| - 1] <= 0x39) && !(0x30 <= b[|b| - 1] <= 0x39)
    requires Decimal.AllDigits(m) && Decimal.AllDigits(n) && a + m == b + n
    ensures a == b && m == n
  {
    var path := a + m;
    assert path[|a| - 1] == (b + n)[|a| - 1] && path[|b| - 1] == (b + n)[|b| - 1] == b[|b| - 1];
    assert |a| == |b|;
    assert path[..|a|] == a && path[..|b|] == b && path[|a|..] == m && path[|b|..] == n;
  }

  /** Downloads numbered differently are staged at different paths, whatever their names; a name and a number are told
      by the path they make. */
  lemma StagedApart(a: Text, i: Text, b: Text, j: Text)
    requires Numbered(i) && Numbered(j) && StagedPath(a, i) == StagedPath(b, j)
    ensures a == b && i == j
  {
    var prefix := Ascii("download-");
    assert prefix[|prefix| - 1] == 0x2d;
    assert i == prefix + i[|prefix|..] && j == prefix + j[|prefix|..];
    assert StagedPath(a, i) == a + Marker() + prefix + i[|prefix|..];
    assert StagedPath(b, j) == b + Marker() + prefix + j[|prefix|..];
    LastNumber(a + Marker() + prefix, b + Marker() + prefix, i[|prefix|..], j[|prefix|..]);
    assert (a + Marker() + prefix)[..|a|] == a && (b + Marker() + prefix)[..|a|] == b;
  }

  /** Nothing is staged at the path it ends up at. */
  lemma StagedElsewhere(name: Text, id: Text)
    ensures StagedPath(name, id) != name
  {
    assert |StagedPath(name, id)| > |name|;
  }
}
