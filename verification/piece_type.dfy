/** Piece types and their SAN (standard algebraic notation) abbreviations. */
module PieceTypes {
  import opened Results

  /** The piece types the program's enum declares, in declaration order. */
  datatype PieceType = Pawn | Knight | Queen

  /** The enum's `values()`, in declaration order. */
  const Values: seq<PieceType> := [Pawn, Knight, Queen]

  /** The abbreviation each constant is built with. */
  function SanAbbreviation(t: PieceType): string
  {
    match t
    case Pawn => ""
    case Knight => "N"
    case Queen => "Q"
  }

  /** The message of the exception thrown for an unknown abbreviation. */
  function IllegalAbbreviation(abbreviation: string): string
  {
    "Illegal SAN abbreviation: " + abbreviation
  }

  /** Linear search of `types`, front to back, for the first type whose
      abbreviation equals `abbreviation`. */
  function Search(types: seq<PieceType>, abbreviation: string): (r: Option<PieceType>)
    ensures r.Some? ==> r.value in types && SanAbbreviation(r.value) == abbreviation
    ensures r.None? <==> forall i | 0 <= i < |types| :: SanAbbreviation(types[i]) != abbreviation
    ensures r.Some? && |types| > 0 && SanAbbreviation(types[0]) == abbreviation ==> r.value == types[0]
  {
    if |types| == 0 then None
    else if abbreviation == SanAbbreviation(types[0]) then Some(types[0])
    else Search(types[1..], abbreviation)
  }

  /** Every constant of the enum is visited by the search. */
  lemma ValuesComplete(t: PieceType)
    ensures t in Values
  {
  }

  /** `PieceType.fromSanAbbreviation`: the type with the given abbreviation,
      or the failure the thrown `IllegalArgumentException` reports. */
  function FromSanAbbreviation(abbreviation: string): (r: Result<PieceType, string>)
    ensures r.Success? <==> exists t: PieceType :: SanAbbreviation(t) == abbreviation
    ensures r.Success? ==> SanAbbreviation(r.value) == abbreviation
    ensures r.Failure? ==> r.error == "Illegal SAN abbreviation: " + abbreviation
  {
    match Search(Values, abbreviation)
    case Some(t) => Success(t)
    case None =>
      assert forall t: PieceType :: SanAbbreviation(t) != abbreviation by {
        forall t: PieceType ensures SanAbbreviation(t) != abbreviation {
          ValuesComplete(t);
          var i :| 0 <= i < |Values| && Values[i] == t;
        }
      }
      Failure(IllegalAbbreviation(abbreviation))
  }

  /** No two constants share an abbreviation, so at most one entry of the
      table matches any input. */
  lemma AbbreviationsDistinct(t: PieceType, u: PieceType)
    ensures SanAbbreviation(t) == SanAbbreviation(u) ==> t == u
  {
  }

  /** Every abbreviation is empty or a single letter. */
  lemma AbbreviationsShort(t: PieceType)
    ensures |SanAbbreviation(t)| <= 1
  {
  }

  /** Looking up a type's own abbreviation gives that type back. */
  lemma RoundTrip(t: PieceType)
    ensures FromSanAbbreviation(SanAbbreviation(t)) == Success(t)
  {
  }

  /** The three abbreviations the table holds, and letters it does not. */
  lemma KnownAbbreviations()
    ensures FromSanAbbreviation("") == Success(Pawn)
    ensures FromSanAbbreviation("N") == Success(Knight)
    ensures FromSanAbbreviation("Q") == Success(Queen)
    ensures FromSanAbbreviation("R") == Failure("Illegal SAN abbreviation: R")
    ensures FromSanAbbreviation("K") == Failure("Illegal SAN abbreviation: K")
  {
    RoundTrip(Pawn);
    RoundTrip(Knight);
    RoundTrip(Queen);
    forall t: PieceType ensures SanAbbreviation(t) != "R" && SanAbbreviation(t) != "K" {
      assert |SanAbbreviation(t)| == 0 || SanAbbreviation(t)[0] in {'N', 'Q'};
    }
    assert FromSanAbbreviation("R").Failure? && FromSanAbbreviation("K").Failure?;
    assert "Illegal SAN abbreviation: " + "R" == "Illegal SAN abbreviation: R";
    assert "Illegal SAN abbreviation: " + "K" == "Illegal SAN abbreviation: K";
  }

  /** Exactly the strings "", "N" and "Q" are accepted. */
  lemma AcceptedExactlyTable(abbreviation: string)
    ensures FromSanAbbreviation(abbreviation).Success? <==> abbreviation in {"", "N", "Q"}
  {
  }
}
