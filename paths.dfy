/** Storage path strings: the trailing-'/' normalisation and the rating
    subfolder names of check_storage_dir (konadl_cli.py:59-61, 71-73). */
module Paths {

  /** The three rating categories of the Konachan / Yande.re boards. */
  datatype Rating = Safe | Questionable | Explicit

  function RatingName(r: Rating): string
  {
    match r
    case Safe => "safe"
    case Questionable => "questionable"
    case Explicit => "explicit"
  }

  predicate EndsWithSlash(s: string)
  {
    |s| > 0 && s[|s| - 1] == '/'
  }

  /** The storage path as handed to the engine: a '/' is appended unless the
      last character already is one. The source reads storage[-1], so the
      empty path has no normal form (it raises; see Storage.ResolveStorage). */
  function Normalize(raw: string): (s: string)
    requires raw != []
    ensures EndsWithSlash(s)
    ensures |raw| <= |s| <= |raw| + 1 && s[..|raw|] == raw
    ensures s == raw <==> EndsWithSlash(raw)
  {
    if raw[|raw| - 1] != '/' then raw + "/" else raw
  }

  /** Normalising an already normalised path changes nothing. */
  lemma NormalizeIdempotent(raw: string)
    requires raw != []
    ensures Normalize(Normalize(raw)) == Normalize(raw)
  {
  }

  /** A rating subfolder as the source spells it, '{}/safe'.format(storage):
      the storage path, one more '/', then the rating's name. */
  function Subfolder(storage: string, r: Rating): (p: string)
    ensures |p| == |storage| + 1 + |RatingName(r)|
    ensures p[..|storage|] == storage && p[|storage|] == '/'
    ensures p[|storage| + 1..] == RatingName(r)
  {
    storage + "/" + RatingName(r)
  }

  /** The subfolders in the order check_storage_dir creates them. */
  function Subfolders(storage: string): (ps: seq<string>)
    ensures |ps| == 3
    ensures forall r: Rating :: Subfolder(storage, r) in ps
    ensures forall p :: p in ps ==> exists r: Rating :: p == Subfolder(storage, r)
  {
    [Subfolder(storage, Safe), Subfolder(storage, Questionable), Subfolder(storage, Explicit)]
  }

  /** The three subfolders are distinct from each other and from the storage
      directory itself, so creating them makes three new directories. */
  lemma SubfoldersDistinct(storage: string)
    ensures forall r1: Rating, r2: Rating ::
      Subfolder(storage, r1) == Subfolder(storage, r2) ==> r1 == r2
    ensures forall r: Rating :: Subfolder(storage, r) != storage
  {
    forall r1: Rating, r2: Rating | Subfolder(storage, r1) == Subfolder(storage, r2)
      ensures r1 == r2
    {
      assert |RatingName(r1)| == |RatingName(r2)|;
    }
  }

  /** Because the storage path already ends in '/', every subfolder path
      holds a doubled "//" where the two meet. */
  lemma SubfolderDoubleSlash(raw: string, r: Rating)
    requires raw != []
    ensures var storage := Normalize(raw);
      Subfolder(storage, r)[|storage| - 1..|storage| + 1] == "//"
  {
  }
}
