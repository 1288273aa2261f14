/**
 * The in-memory book catalogue of `src/models.py`: the two kinds of book,
 * their tagged records, the decoding of one record when a catalogue is
 * loaded, and the `Bibliotheque` that owns the list of books.
 *
 * A JSON document is taken as already parsed into a list of records whose
 * values are strings; reading and writing the file is not modelled, only
 * its outcome (`LoadError`) and the records it yields.
 */
module Models {
  import opened Wrappers

  /** `Livre` and its subclass `LivreNumerique`, which adds a file size.
      Books are never changed after construction, so they are values. */
  datatype Book =
    | Livre(titre: string, auteur: string, isbn: string)
    | LivreNumerique(titre: string, auteur: string, isbn: string, tailleFichier: string)

  /** A JSON object with string values, as `to_dict` builds it. */
  type Record = map<string, string>

  // ---------------------------------------------------------------------------
  // Records
  // ---------------------------------------------------------------------------

  /** `to_dict`: the printed book carries the tag `"Livre"`; the digital book
      overwrites the tag with `"Livre Numerique"` and adds its file size. */
  function ToDict(b: Book): (d: Record)
    ensures "type" in d && "titre" in d && "auteur" in d && "ISBN" in d
    ensures d["type"] == if b.LivreNumerique? then "Livre Numerique" else "Livre"
    ensures d["titre"] == b.titre && d["auteur"] == b.auteur && d["ISBN"] == b.isbn
    ensures "taille_fichier" in d <==> b.LivreNumerique?
    ensures b.LivreNumerique? ==> d["taille_fichier"] == b.tailleFichier
    ensures |d.Keys| == if b.LivreNumerique? then 5 else 4
  {
    var base := map["type" := "Livre", "titre" := b.titre, "auteur" := b.auteur, "ISBN" := b.isbn];
    match b
    case Livre(_, _, _) => base
    case LivreNumerique(_, _, _, taille) => base["type" := "Livre Numerique"]["taille_fichier" := taille]
  }

  /** `dict.get(key, "")`. */
  function Get(d: Record, key: string): string
  {
    if key in d then d[key] else ""
  }

  /** The decode branch of `charger`: a record tagged `"Livre Numerique"`
      becomes a digital book, any other record (another tag or no tag at all)
      a printed book; a missing field reads as the empty string. */
  function FromDict(d: Record): (b: Book)
    ensures b.LivreNumerique? <==> "type" in d && d["type"] == "Livre Numerique"
    ensures "titre" in d ==> b.titre == d["titre"]
    ensures "titre" !in d ==> b.titre == ""
    ensures "auteur" in d ==> b.auteur == d["auteur"]
    ensures "auteur" !in d ==> b.auteur == ""
    ensures "ISBN" in d ==> b.isbn == d["ISBN"]
    ensures "ISBN" !in d ==> b.isbn == ""
    ensures b.LivreNumerique? && "taille_fichier" in d ==> b.tailleFichier == d["taille_fichier"]
    ensures b.LivreNumerique? && "taille_fichier" !in d ==> b.tailleFichier == ""
  {
    if Get(d, "type") == "Livre Numerique" then
      LivreNumerique(Get(d, "titre"), Get(d, "auteur"), Get(d, "ISBN"), Get(d, "taille_fichier"))
    else
      Livre(Get(d, "titre"), Get(d, "auteur"), Get(d, "ISBN"))
  }

  /** Decoding the record of a book gives back the same book, of the same kind. */
  lemma FromDictToDict(b: Book)
    ensures FromDict(ToDict(b)) == b
  {
  }

  /** The records written for a list of books, in order (`sauvegarder`). */
  function EncodeAll(bs: seq<Book>): (rs: seq<Record>)
    ensures |rs| == |bs|
    ensures forall i :: 0 <= i < |bs| ==> rs[i] == ToDict(bs[i])
  {
    if bs == [] then [] else EncodeAll(bs[..|bs| - 1]) + [ToDict(bs[|bs| - 1])]
  }

  /** The books decoded from a list of records, in order, one per record. */
  function DecodeAll(rs: seq<Record>): (bs: seq<Book>)
    ensures |bs| == |rs|
    ensures forall i :: 0 <= i < |rs| ==> bs[i] == FromDict(rs[i])
  {
    if rs == [] then [] else DecodeAll(rs[..|rs| - 1]) + [FromDict(rs[|rs| - 1])]
  }

  /** Loading what was saved gives back the same books in the same order. */
  lemma {:induction false} DecodeEncodeAll(bs: seq<Book>)
    ensures DecodeAll(EncodeAll(bs)) == bs
  {
    var rs := EncodeAll(bs);
    forall i | 0 <= i < |bs| ensures DecodeAll(rs)[i] == bs[i] {
      FromDictToDict(bs[i]);
    }
  }

  // ---------------------------------------------------------------------------
  // Searching and removing
  // ---------------------------------------------------------------------------

  /** The field a search compares. */
  datatype Field = Titre | Auteur

  function Key(b: Book, f: Field): string
  {
    match f
    case Titre => b.titre
    case Auteur => b.auteur
  }

  /** `sub` is `s` with some entries dropped and the order of the rest kept. */
  ghost predicate IsSubsequence<T>(sub: seq<T>, s: seq<T>)
    decreases |s|
  {
    if sub == [] then true
    else if s == [] then false
    else (sub[0] == s[0] && IsSubsequence(sub[1..], s[1..])) || IsSubsequence(sub, s[1..])
  }

  /** The list comprehension `[b for b in s if key(b) == q]`: exactly the
      books of `s` whose field equals `q`, each as often as in `s`, in the
      order of `s`. */
  function Matching(s: seq<Book>, f: Field, q: string): (r: seq<Book>)
    ensures forall b :: multiset(r)[b] == if Key(b, f) == q then multiset(s)[b] else 0
    ensures IsSubsequence(r, s)
  {
    if s == [] then []
    else
      var rest := Matching(s[1..], f, q);
      assert multiset(s) == multiset{s[0]} + multiset(s[1..]) by {
        assert s == [s[0]] + s[1..];
      }
      if Key(s[0], f) == q then
        var r := [s[0]] + rest;
        assert r[1..] == rest;
        r
      else
        rest
  }

  /** The position of the first book with this ISBN, or `|s|` when there is
      none. */
  function FirstIndex(s: seq<Book>, isbn: string): (k: nat)
    ensures k <= |s|
    ensures forall j :: 0 <= j < k ==> s[j].isbn != isbn
    ensures k < |s| ==> s[k].isbn == isbn
  {
    if s == [] then 0
    else if s[0].isbn == isbn then 0
    else 1 + FirstIndex(s[1..], isbn)
  }

  /** What went wrong before any book was loaded: `FileNotFoundError`, the
      `ValueError` for invalid JSON, or another `OSError`. */
  datatype LoadError = FileMissing | InvalidJson | ReadFailed

  // ---------------------------------------------------------------------------
  // The catalogue
  // ---------------------------------------------------------------------------

  /** A named library and its list of books. */
  class Bibliotheque {
    const nom: string
    var livres: seq<Book>

    constructor (nom: string)
      ensures this.nom == nom && livres == []
    {
      this.nom := nom;
      livres := [];
    }

    /** Appends a book at the end. */
    method AjouterLivre(livre: Book)
      modifies this`livres
      ensures livres == old(livres) + [livre]
    {
      livres := livres + [livre];
    }

    /** A copy of the list of books; the catalogue is left as it is. */
    method Lister() returns (r: seq<Book>)
      ensures r == livres
    {
      r := livres;
    }

    /** Removes the first book with this ISBN and answers true, keeping the
        others in order; answers false and changes nothing when no book has
        this ISBN. */
    method SupprimerLivre(isbn: string) returns (found: bool)
      modifies this`livres
      ensures var k := FirstIndex(old(livres), isbn);
              && found == (k < |old(livres)|)
              && livres == if found then old(livres)[..k] + old(livres)[k + 1..] else old(livres)
    {
      var snapshot := livres;
      var i := 0;
      while i < |snapshot|
        invariant i <= |snapshot| && livres == snapshot == old(livres)
        invariant forall j :: 0 <= j < i ==> snapshot[j].isbn != isbn
      {
        if snapshot[i].isbn == isbn {
          // `remove` deletes the first book equal to this one: no book before
          // position i has this ISBN, so it is the one at position i.
          livres := livres[..i] + livres[i + 1..];
          return true;
        }
        i := i + 1;
      }
      return false;
    }

    /** The books with exactly this title, in catalogue order. */
    function RechercheParTitre(titre: string): (r: seq<Book>)
      reads this
      ensures forall b :: multiset(r)[b] == if b.titre == titre then multiset(livres)[b] else 0
      ensures IsSubsequence(r, livres)
    {
      Matching(livres, Titre, titre)
    }

    /** The books with exactly this author, in catalogue order. */
    function RechercheParAuteur(auteur: string): (r: seq<Book>)
      reads this
      ensures forall b :: multiset(r)[b] == if b.auteur == auteur then multiset(livres)[b] else 0
      ensures IsSubsequence(r, livres)
    {
      Matching(livres, Auteur, auteur)
    }

    /** `charger`: when the file cannot be read or parsed, the error is
        reported and the catalogue is left as it was; otherwise the catalogue
        is replaced by the books decoded from the records, in order. */
    method Charger(data: Result<seq<Record>, LoadError>) returns (r: Option<LoadError>)
      modifies this`livres
      ensures data.Failure? ==> r == Some(data.error) && livres == old(livres)
      ensures data.Success? ==> r == None && livres == DecodeAll(data.value)
    {
      if data.Failure? {
        return Some(data.error);
      }
      var records := data.value;
      livres := [];
      for i := 0 to |records|
        invariant livres == DecodeAll(records[..i])
      {
        assert records[..i + 1][..i] == records[..i];
        livres := livres + [FromDict(records[i])];
      }
      assert records[..|records|] == records;
      return None;
    }
  }
}
