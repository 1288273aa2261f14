/**
 * `TP1.py`, the earlier copy of the catalogue. Its books and their records
 * are those of `src/models.py` (the same classes and the same `to_dict`),
 * so it shares `Models.Book` and `Models.ToDict`. It differs in three
 * places: removal reports nothing, decoding reads every field with `[]`
 * and so fails on a missing key, and loading catches every error, keeping
 * the books decoded before the failing record.
 */
module Tp1 {
  import opened Wrappers
  import M = Models

  /** The records of this copy's `to_dict` are exactly the dictionaries it
      builds: four keys for a printed book, five for a digital one. */
  lemma ToDictKinds(b: M.Book)
    ensures b.Livre? ==>
            M.ToDict(b) == map["type" := "Livre", "titre" := b.titre, "auteur" := b.auteur, "ISBN" := b.isbn]
    ensures b.LivreNumerique? ==>
            M.ToDict(b) == map["type" := "Livre Numerique", "titre" := b.titre, "auteur" := b.auteur,
                               "ISBN" := b.isbn, "taille_fichier" := b.tailleFichier]
  {
  }

  /** The fields a record must carry besides its tag. */
  function RequiredKeys(d: M.Record): set<string>
    requires "type" in d
  {
    if d["type"] == "Livre Numerique" then {"titre", "auteur", "ISBN", "taille_fichier"}
    else {"titre", "auteur", "ISBN"}
  }

  /** The decode branch of this `charger`: every field is read with `[]`, so
      the first missing key, in the order the fields are read, raises
      `KeyError`. */
  function FromDictStrict(d: M.Record): (r: Result<M.Book, string>)
    ensures r.Success? <==> "type" in d && RequiredKeys(d) <= d.Keys
    ensures r.Success? ==> r.value == M.FromDict(d)
    ensures r.Failure? ==> r.error !in d
    ensures r.Failure? && r.error != "type" ==> "type" in d && r.error in RequiredKeys(d)
    ensures r.Failure? && r.error == "titre" ==> "type" in d
    ensures r.Failure? && r.error == "auteur" ==> "type" in d && "titre" in d
    ensures r.Failure? && r.error == "ISBN" ==> "type" in d && "titre" in d && "auteur" in d
    ensures r.Failure? && r.error == "taille_fichier" ==>
            "type" in d && "titre" in d && "auteur" in d && "ISBN" in d
  {
    if "type" !in d then Failure("type")
    else if "titre" !in d then Failure("titre")
    else if "auteur" !in d then Failure("auteur")
    else if "ISBN" !in d then Failure("ISBN")
    else if d["type"] == "Livre Numerique" then
      if "taille_fichier" !in d then Failure("taille_fichier")
      else Success(M.LivreNumerique(d["titre"], d["auteur"], d["ISBN"], d["taille_fichier"]))
    else
      Success(M.Livre(d["titre"], d["auteur"], d["ISBN"]))
  }

  /** The position of the first record that does not decode, or `|rs|` when
      all of them do. */
  function FirstBadRecord(rs: seq<M.Record>): (k: nat)
    ensures k <= |rs|
    ensures forall j :: 0 <= j < k ==> FromDictStrict(rs[j]).Success?
    ensures k < |rs| ==> FromDictStrict(rs[k]).Failure?
  {
    if rs == [] then 0
    else if FromDictStrict(rs[0]).Failure? then 0
    else 1 + FirstBadRecord(rs[1..])
  }

  /** Every record written for a book decodes strictly, so loading what
      was saved gives back every book, in order. */
  lemma {:induction false} StrictLoadOfSaved(bs: seq<M.Book>)
    ensures FirstBadRecord(M.EncodeAll(bs)) == |bs|
    ensures M.DecodeAll(M.EncodeAll(bs)[..FirstBadRecord(M.EncodeAll(bs))]) == bs
  {
    var rs := M.EncodeAll(bs);
    forall j | 0 <= j < |rs| ensures FromDictStrict(rs[j]).Success? {
      assert rs[j] == M.ToDict(bs[j]);
    }
    assert rs[..|rs|] == rs;
    M.DecodeEncodeAll(bs);
  }

  /** What loading reports: success, a file that could not be read or
      parsed, or the missing key of the first record that does not decode. */
  datatype LoadStatus = Loaded | Unreadable(error: M.LoadError) | MissingKey(key: string)

  /** A named library and its list of books. */
  class Bibliotheque {
    const nom: string
    var livres: seq<M.Book>

    constructor (nom: string)
      ensures this.nom == nom && livres == []
    {
      this.nom := nom;
      livres := [];
    }

    /** Appends a book at the end. */
    method AjouterLivre(livre: M.Book)
      modifies this`livres
      ensures livres == old(livres) + [livre]
    {
      livres := livres + [livre];
    }

    /** Removes the first book with this ISBN, if any, and stops there; the
        others keep their order. */
    method SupprimerLivre(isbn: string)
      modifies this`livres
      ensures var k := M.FirstIndex(old(livres), isbn);
              livres == if k < |old(livres)| then old(livres)[..k] + old(livres)[k + 1..] else old(livres)
    {
      var i := 0;
      while i < |livres|
        invariant i <= |livres| && livres == old(livres)
        invariant forall j :: 0 <= j < i ==> livres[j].isbn != isbn
      {
        if livres[i].isbn == isbn {
          livres := livres[..i] + livres[i + 1..];
          return;
        }
        i := i + 1;
      }
    }

    /** The books with exactly this title, in catalogue order. */
    function RechercheParTitre(titre: string): (r: seq<M.Book>)
      reads this
      ensures forall b :: multiset(r)[b] == if b.titre == titre then multiset(livres)[b] else 0
      ensures M.IsSubsequence(r, livres)
    {
      M.Matching(livres, M.Titre, titre)
    }

    /** The books with exactly this author, in catalogue order. */
    function RechercheParAuteur(auteur: string): (r: seq<M.Book>)
      reads this
      ensures forall b :: multiset(r)[b] == if b.auteur == auteur then multiset(livres)[b] else 0
      ensures M.IsSubsequence(r, livres)
    {
      M.Matching(livres, M.Auteur, auteur)
    }

    /** `charger`: a file that cannot be read or parsed leaves the catalogue
        as it was. Otherwise the catalogue is cleared and refilled record by
        record; a record with a missing key stops the load, and the books
        decoded before it stay. */
    method Charger(data: Result<seq<M.Record>, M.LoadError>) returns (status: LoadStatus)
      modifies this`livres
      ensures data.Failure? ==> status == Unreadable(data.error) && livres == old(livres)
      ensures data.Success? ==>
              var k := FirstBadRecord(data.value);
              && livres == M.DecodeAll(data.value[..k])
              && status == if k == |data.value| then Loaded else MissingKey(FromDictStrict(data.value[k]).error)
    {
      if data.Failure? {
        return Unreadable(data.error);
      }
      var records := data.value;
      livres := [];
      var i := 0;
      while i < |records|
        invariant i <= FirstBadRecord(records)
        invariant livres == M.DecodeAll(records[..i])
      {
        var decoded := FromDictStrict(records[i]);
        if decoded.Failure? {
          return MissingKey(decoded.error);
        }
        assert records[..i + 1][..i] == records[..i];
        livres := livres + [decoded.value];
        i := i + 1;
      }
      assert records[..i] == records;
      return Loaded;
    }
  }
}
