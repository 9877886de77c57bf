/** The values the art registry stores and returns: the tagged ok/err result
    of every operation with its numeric error codes, and the three kinds of
    record held in the registry's maps. */
module Records {

  /** Error codes of the registry's wire contract. */
  const ErrNotFound: int := 101
  const ErrUnauthorized: int := 102
  const ErrAlreadyExists: int := 103

  /** The contribution weight a creator receives when an artwork is created. */
  const InitialContribution: int := 100

  /** `{ type: 'ok', value }` or `{ type: 'err', value: code }`. */
  datatype Result<+T> = Ok(value: T) | Err(code: int)

  /** An optional reference; `None` stands for `null`. */
  datatype Option<+T> = None | Some(value: T)

  /** An artist profile, keyed in the registry by the caller identity. */
  datatype Artist = Artist(name: string, registered: bool)

  /** An artwork record, keyed in the registry by its numeric id. */
  datatype Artwork = Artwork(
    title: string,
    description: string,
    creator: string,
    collaborators: seq<string>,
    contributions: seq<int>,
    totalContributions: int,
    isFinalized: bool,
    nftId: Option<int>)

  /** An NFT record, keyed in the registry by its numeric id. */
  datatype Nft = Nft(artworkId: int, owner: string, price: int)

  /** The sum of a sequence of contribution weights, from the front. */
  function Sum(s: seq<int>): int
  {
    if s == [] then 0 else s[0] + Sum(s[1..])
  }

  /** Appending a weight adds it to the sum: what makes `totalContributions += amount`
      agree with pushing `amount` onto `contributions`. */
  lemma {:induction false} SumAppend(s: seq<int>, x: int)
    ensures Sum(s + [x]) == Sum(s) + x
  {
    if s == [] {
      assert [] + [x] == [x];
    } else {
      assert (s + [x])[1..] == s[1..] + [x];
      SumAppend(s[1..], x);
    }
  }
}
