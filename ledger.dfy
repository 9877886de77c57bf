/** The registry's state as a value and its six operations as functions on
    that value: the specification the `Engine.Registry` class is proved
    against. Each function returns the new state together with the result the
    operation hands back; the lemmas below state what holds of every state
    reachable by any sequence of operations. */
module Ledger {
  import opened Records

  /** The three maps and the two id counters of the registry. */
  datatype State = State(
    artists: map<string, Artist>,
    artworks: map<int, Artwork>,
    nfts: map<int, Nft>,
    lastArtworkId: nat,
    lastNftId: nat)

  /** One operation's effect: the state after the call and the result returned. */
  datatype Step<+T> = Step(state: State, result: Result<T>)

  /** An artwork record is consistent: one weight per collaborator, the
      creator first, the total equal to the sum of the weights, and an NFT
      only on a finalized artwork. */
  ghost predicate WellFormed(a: Artwork)
  {
    && |a.collaborators| == |a.contributions| > 0
    && a.collaborators[0] == a.creator
    && a.totalContributions == Sum(a.contributions)
    && (a.nftId.Some? ==> a.isFinalized)
  }

  /** The invariant every reachable state satisfies. */
  ghost predicate Inv(s: State)
  {
    && (forall c | c in s.artists :: s.artists[c].registered)
    && (forall id | id in s.artworks :: 1 <= id <= s.lastArtworkId && WellFormed(s.artworks[id]))
    && (forall id, c | id in s.artworks && c in s.artworks[id].collaborators :: c in s.artists)
    && (forall id | id in s.nfts ::
          && 1 <= id <= s.lastNftId
          && s.nfts[id].artworkId in s.artworks
          && s.artworks[s.nfts[id].artworkId].nftId == Some(id))
    && (forall id | id in s.artworks && s.artworks[id].nftId.Some? ::
          && s.artworks[id].nftId.value in s.nfts
          && s.nfts[s.artworks[id].nftId.value].artworkId == id)
  }

  /** The state after the reset: no artists, artworks or NFTs, both counters at zero. */
  function Empty(): (s: State)
    ensures Inv(s)
    ensures s.artists == map[] && s.artworks == map[] && s.nfts == map[]
    ensures s.lastArtworkId == 0 && s.lastNftId == 0
  {
    State(map[], map[], map[], 0, 0)
  }

  /** `registerArtist`: a caller may register once; a second registration
      fails with 103 and keeps the first profile. */
  function RegisterArtist(s: State, caller: string, name: string): (r: Step<bool>)
    ensures r.result.Err? <==> caller in s.artists
    ensures r.result.Err? ==> r.result.code == ErrAlreadyExists && r.state == s
    ensures r.result.Ok? ==>
      && r.result.value
      && r.state.artists.Keys == s.artists.Keys + {caller}
      && r.state.artists[caller] == Artist(name, true)
      && (forall c | c in s.artists :: r.state.artists[c] == s.artists[c])
      && r.state.(artists := s.artists) == s
  {
    if caller in s.artists then
      Step(s, Err(ErrAlreadyExists))
    else
      Step(s.(artists := s.artists[caller := Artist(name, true)]), Ok(true))
  }

  /** The record `createArtwork` stores: the creator is the sole collaborator
      with the initial weight, not finalized, no NFT. */
  function NewArtwork(creator: string, title: string, description: string): (a: Artwork)
    ensures WellFormed(a)
    ensures a.creator == creator && a.collaborators == [creator]
    ensures a.totalContributions == InitialContribution
    ensures !a.isFinalized && a.nftId == None
  {
    Artwork(title, description, creator, [creator], [InitialContribution], InitialContribution, false, None)
  }

  /** `createArtwork`: only a registered caller may create; the new artwork
      gets the next id, which no existing artwork holds. */
  function CreateArtwork(s: State, caller: string, title: string, description: string): (r: Step<nat>)
    ensures r.result.Err? <==> caller !in s.artists
    ensures r.result.Err? ==> r.result.code == ErrUnauthorized && r.state == s
    ensures r.result.Ok? ==>
      && r.result.value == s.lastArtworkId + 1
      && r.state.lastArtworkId == r.result.value
      && r.state.artworks == s.artworks[r.result.value := NewArtwork(caller, title, description)]
      && r.state.(artworks := s.artworks, lastArtworkId := s.lastArtworkId) == s
    ensures Inv(s) && r.result.Ok? ==> r.result.value !in s.artworks
  {
    if caller !in s.artists then
      Step(s, Err(ErrUnauthorized))
    else
      var id := s.lastArtworkId + 1;
      Step(s.(artworks := s.artworks[id := NewArtwork(caller, title, description)], lastArtworkId := id), Ok(id))
  }

  /** `addContribution`: a registered caller appends itself and its weight to
      an existing, unfinalized artwork; the guards are checked in the order
      caller (102), artwork (101), finalization (102). */
  function AddContribution(s: State, caller: string, artworkId: int, amount: int): (r: Step<bool>)
    ensures r.result.Err? <==>
      caller !in s.artists || artworkId !in s.artworks || s.artworks[artworkId].isFinalized
    ensures caller !in s.artists ==> r.result == Err(ErrUnauthorized)
    ensures caller in s.artists && artworkId !in s.artworks ==> r.result == Err(ErrNotFound)
    ensures caller in s.artists && artworkId in s.artworks && s.artworks[artworkId].isFinalized ==>
      r.result == Err(ErrUnauthorized)
    ensures r.result.Err? ==> r.state == s
    ensures r.result.Ok? ==>
      && r.result.value
      && artworkId in s.artworks && artworkId in r.state.artworks
      && var a, b := s.artworks[artworkId], r.state.artworks[artworkId];
      && b.collaborators == a.collaborators + [caller]
      && b.contributions == a.contributions + [amount]
      && b.totalContributions == a.totalContributions + amount
      && b.(collaborators := a.collaborators, contributions := a.contributions,
            totalContributions := a.totalContributions) == a
      && r.state == s.(artworks := s.artworks[artworkId := b])
  {
    if caller !in s.artists then
      Step(s, Err(ErrUnauthorized))
    else if artworkId !in s.artworks then
      Step(s, Err(ErrNotFound))
    else
      var a := s.artworks[artworkId];
      if a.isFinalized then
        Step(s, Err(ErrUnauthorized))
      else
        var b := a.(collaborators := a.collaborators + [caller],
                    contributions := a.contributions + [amount],
                    totalContributions := a.totalContributions + amount);
        Step(s.(artworks := s.artworks[artworkId := b]), Ok(true))
  }

  /** `finalizeArtwork`: only the creator may finalize, and only once; the
      guards are checked in the order artwork (101), creator (102),
      finalization (102). Success changes nothing but the flag. */
  function FinalizeArtwork(s: State, caller: string, artworkId: int): (r: Step<bool>)
    ensures r.result.Err? <==>
      artworkId !in s.artworks || s.artworks[artworkId].creator != caller
      || s.artworks[artworkId].isFinalized
    ensures artworkId !in s.artworks ==> r.result == Err(ErrNotFound)
    ensures artworkId in s.artworks && r.result.Err? ==> r.result == Err(ErrUnauthorized)
    ensures r.result.Err? ==> r.state == s
    ensures r.result.Ok? ==>
      && r.result.value
      && artworkId in s.artworks && !s.artworks[artworkId].isFinalized
      && r.state == s.(artworks := s.artworks[artworkId := s.artworks[artworkId].(isFinalized := true)])
  {
    if artworkId !in s.artworks then
      Step(s, Err(ErrNotFound))
    else
      var a := s.artworks[artworkId];
      if a.creator != caller then
        Step(s, Err(ErrUnauthorized))
      else if a.isFinalized then
        Step(s, Err(ErrUnauthorized))
      else
        Step(s.(artworks := s.artworks[artworkId := a.(isFinalized := true)]), Ok(true))
  }

  /** `mintNft`: any caller may mint the one NFT of a finalized artwork; the
      guards are checked in the order artwork (101), finalization (102),
      existing NFT (103). The new NFT gets the next id and is linked both ways. */
  function MintNft(s: State, caller: string, artworkId: int, price: int): (r: Step<nat>)
    ensures r.result.Err? <==>
      artworkId !in s.artworks || !s.artworks[artworkId].isFinalized
      || s.artworks[artworkId].nftId.Some?
    ensures artworkId !in s.artworks ==> r.result == Err(ErrNotFound)
    ensures artworkId in s.artworks && !s.artworks[artworkId].isFinalized ==>
      r.result == Err(ErrUnauthorized)
    ensures artworkId in s.artworks && s.artworks[artworkId].isFinalized && s.artworks[artworkId].nftId.Some? ==>
      r.result == Err(ErrAlreadyExists)
    ensures r.result.Err? ==> r.state == s
    ensures r.result.Ok? ==>
      && artworkId in s.artworks
      && var id := r.result.value;
      && id == s.lastNftId + 1
      && r.state.lastNftId == id
      && r.state.nfts == s.nfts[id := Nft(artworkId, caller, price)]
      && r.state.artworks == s.artworks[artworkId := s.artworks[artworkId].(nftId := Some(id))]
      && r.state.(nfts := s.nfts, artworks := s.artworks, lastNftId := s.lastNftId) == s
    ensures Inv(s) && r.result.Ok? ==> r.result.value !in s.nfts
  {
    if artworkId !in s.artworks then
      Step(s, Err(ErrNotFound))
    else
      var a := s.artworks[artworkId];
      if !a.isFinalized then
        Step(s, Err(ErrUnauthorized))
      else if a.nftId.Some? then
        Step(s, Err(ErrAlreadyExists))
      else
        var id := s.lastNftId + 1;
        Step(s.(nfts := s.nfts[id := Nft(artworkId, caller, price)],
                artworks := s.artworks[artworkId := a.(nftId := Some(id))],
                lastNftId := id), Ok(id))
  }

  /** `buyNft`: any caller becomes the owner of an existing NFT; its artwork
      and price, and every other record, stay as they were. */
  function BuyNft(s: State, caller: string, nftId: int): (r: Step<bool>)
    ensures r.result.Err? <==> nftId !in s.nfts
    ensures r.result.Err? ==> r.result.code == ErrNotFound && r.state == s
    ensures r.result.Ok? ==>
      && r.result.value
      && nftId in s.nfts
      && r.state.nfts.Keys == s.nfts.Keys
      && r.state.nfts[nftId].owner == caller
      && r.state.nfts[nftId].artworkId == s.nfts[nftId].artworkId
      && r.state.nfts[nftId].price == s.nfts[nftId].price
      && (forall id | id in s.nfts && id != nftId :: r.state.nfts[id] == s.nfts[id])
      && r.state.(nfts := s.nfts) == s
  {
    if nftId !in s.nfts then
      Step(s, Err(ErrNotFound))
    else
      Step(s.(nfts := s.nfts[nftId := s.nfts[nftId].(owner := caller)]), Ok(true))
  }

  /** One call of any of the six operations, with its arguments. */
  datatype Op =
    | Register(caller: string, name: string)
    | Create(caller: string, title: string, description: string)
    | Contribute(caller: string, artworkId: int, amount: int)
    | Finalize(caller: string, artworkId: int)
    | Mint(caller: string, artworkId: int, price: int)
    | Buy(caller: string, nftId: int)

  /** The state after one call, whatever it returned. */
  function Apply(s: State, op: Op): State
  {
    match op
    case Register(c, n) => RegisterArtist(s, c, n).state
    case Create(c, t, d) => CreateArtwork(s, c, t, d).state
    case Contribute(c, id, x) => AddContribution(s, c, id, x).state
    case Finalize(c, id) => FinalizeArtwork(s, c, id).state
    case Mint(c, id, p) => MintNft(s, c, id, p).state
    case Buy(c, id) => BuyNft(s, c, id).state
  }

  /** The state after a sequence of calls. */
  function Run(s: State, ops: seq<Op>): State
    decreases |ops|
  {
    if ops == [] then s else Run(Apply(s, ops[0]), ops[1..])
  }

  /** What any later state keeps of an artwork: its title, description and
      creator; its weights only grow at the end, and freeze once it is
      finalized; finalization and the NFT link, once there, stay. */
  ghost predicate ArtworkEvolves(a: Artwork, b: Artwork)
  {
    && b.title == a.title && b.description == a.description && b.creator == a.creator
    && a.collaborators <= b.collaborators && a.contributions <= b.contributions
    && (a.isFinalized ==>
          && b.isFinalized
          && b.collaborators == a.collaborators
          && b.contributions == a.contributions
          && b.totalContributions == a.totalContributions)
    && (a.nftId.Some? ==> b.nftId == a.nftId)
  }

  /** `t` is a possible later state of `s`: counters never go back, no record
      is deleted, profiles never change, artworks evolve as above, and an NFT
      keeps its artwork and its price. */
  ghost predicate Evolves(s: State, t: State)
  {
    && s.lastArtworkId <= t.lastArtworkId
    && s.lastNftId <= t.lastNftId
    && (forall c | c in s.artists :: c in t.artists && t.artists[c] == s.artists[c])
    && (forall id | id in s.artworks :: id in t.artworks && ArtworkEvolves(s.artworks[id], t.artworks[id]))
    && (forall id | id in s.nfts ::
          && id in t.nfts
          && t.nfts[id].artworkId == s.nfts[id].artworkId
          && t.nfts[id].price == s.nfts[id].price)
  }

  /** A successful contribution keeps the artwork consistent. */
  lemma AddContributionPreservesInv(s: State, caller: string, artworkId: int, amount: int)
    requires Inv(s)
    ensures Inv(AddContribution(s, caller, artworkId, amount).state)
  {
    var r := AddContribution(s, caller, artworkId, amount);
    if r.result.Ok? {
      var a, b := s.artworks[artworkId], r.state.artworks[artworkId];
      SumAppend(a.contributions, amount);
      assert WellFormed(b);
    }
  }

  /** A registration keeps the invariant: profiles are only added. */
  lemma RegisterArtistPreservesInv(s: State, caller: string, name: string)
    requires Inv(s)
    ensures Inv(RegisterArtist(s, caller, name).state)
  {
  }

  /** A creation keeps the invariant: the new id is above every existing one. */
  lemma CreateArtworkPreservesInv(s: State, caller: string, title: string, description: string)
    requires Inv(s)
    ensures Inv(CreateArtwork(s, caller, title, description).state)
  {
  }

  /** A finalization keeps the invariant: it only sets the flag. */
  lemma FinalizeArtworkPreservesInv(s: State, caller: string, artworkId: int)
    requires Inv(s)
    ensures Inv(FinalizeArtwork(s, caller, artworkId).state)
  {
  }

  /** A mint keeps the invariant: the new NFT and its artwork point at each other. */
  lemma MintNftPreservesInv(s: State, caller: string, artworkId: int, price: int)
    requires Inv(s)
    ensures Inv(MintNft(s, caller, artworkId, price).state)
  {
  }

  /** A purchase keeps the invariant: it only changes an owner. */
  lemma BuyNftPreservesInv(s: State, caller: string, nftId: int)
    requires Inv(s)
    ensures Inv(BuyNft(s, caller, nftId).state)
  {
  }

  /** Every operation keeps the invariant, on its success and its error paths. */
  lemma StepPreservesInv(s: State, op: Op)
    requires Inv(s)
    ensures Inv(Apply(s, op))
  {
    match op
    case Register(c, n) => RegisterArtistPreservesInv(s, c, n);
    case Create(c, t, d) => CreateArtworkPreservesInv(s, c, t, d);
    case Contribute(c, id, x) => AddContributionPreservesInv(s, c, id, x);
    case Finalize(c, id) => FinalizeArtworkPreservesInv(s, c, id);
    case Mint(c, id, p) => MintNftPreservesInv(s, c, id, p);
    case Buy(c, id) => BuyNftPreservesInv(s, c, id);
  }

  /** Every operation moves to a later state in the sense of `Evolves`. */
  lemma StepEvolves(s: State, op: Op)
    requires Inv(s)
    ensures Evolves(s, Apply(s, op))
  {
  }

  lemma EvolvesReflexive(s: State)
    ensures Evolves(s, s)
  {
  }

  lemma EvolvesTransitive(s: State, t: State, u: State)
    requires Evolves(s, t) && Evolves(t, u)
    ensures Evolves(s, u)
  {
  }

  /** Any sequence of calls keeps the invariant. */
  lemma {:induction false} RunPreservesInv(s: State, ops: seq<Op>)
    requires Inv(s)
    ensures Inv(Run(s, ops))
    decreases |ops|
  {
    if ops != [] {
      StepPreservesInv(s, ops[0]);
      RunPreservesInv(Apply(s, ops[0]), ops[1..]);
    }
  }

  /** Every state reachable from the reset satisfies the invariant. */
  lemma ReachableInv(ops: seq<Op>)
    ensures Inv(Run(Empty(), ops))
  {
    RunPreservesInv(Empty(), ops);
  }

  /** Any sequence of calls moves to a later state in the sense of `Evolves`. */
  lemma {:induction false} RunEvolves(s: State, ops: seq<Op>)
    requires Inv(s)
    ensures Evolves(s, Run(s, ops))
    decreases |ops|
  {
    if ops == [] {
      EvolvesReflexive(s);
    } else {
      var s' := Apply(s, ops[0]);
      StepEvolves(s, ops[0]);
      StepPreservesInv(s, ops[0]);
      RunEvolves(s', ops[1..]);
      EvolvesTransitive(s, s', Run(s', ops[1..]));
    }
  }

  /** One NFT per artwork: two NFTs never refer to the same artwork. */
  lemma NftsHaveDistinctArtworks(s: State, i: int, j: int)
    requires Inv(s)
    requires i in s.nfts && j in s.nfts && i != j
    ensures s.nfts[i].artworkId != s.nfts[j].artworkId
  {
  }

  /** Once registered, a caller stays registered under the same profile, and
      registering it again after any calls fails with 103 and changes nothing. */
  lemma RegistrationIsPermanent(s: State, caller: string, name: string, ops: seq<Op>, name': string)
    requires Inv(s)
    requires RegisterArtist(s, caller, name).result.Ok?
    ensures var t := Run(RegisterArtist(s, caller, name).state, ops);
      && caller in t.artists && t.artists[caller] == Artist(name, true)
      && RegisterArtist(t, caller, name') == Step(t, Err(ErrAlreadyExists))
  {
    var s1 := RegisterArtist(s, caller, name).state;
    StepPreservesInv(s, Register(caller, name));
    RunEvolves(s1, ops);
  }

  /** Once an artwork is finalized, its collaborators and weights are frozen:
      after any calls, every contribution and every second finalization on it
      fails with 102 and changes nothing. */
  lemma FinalizedArtworkIsFrozen(
    s: State, creator: string, artworkId: int, ops: seq<Op>,
    caller: string, amount: int, caller': string)
    requires Inv(s)
    requires FinalizeArtwork(s, creator, artworkId).result.Ok?
    ensures var s1 := FinalizeArtwork(s, creator, artworkId).state;
      var t := Run(s1, ops);
      && artworkId in t.artworks
      && t.artworks[artworkId].isFinalized
      && t.artworks[artworkId].collaborators == s.artworks[artworkId].collaborators
      && t.artworks[artworkId].contributions == s.artworks[artworkId].contributions
      && t.artworks[artworkId].totalContributions == s.artworks[artworkId].totalContributions
      && AddContribution(t, caller, artworkId, amount) == Step(t, Err(ErrUnauthorized))
      && FinalizeArtwork(t, caller', artworkId) == Step(t, Err(ErrUnauthorized))
  {
    var s1 := FinalizeArtwork(s, creator, artworkId).state;
    StepPreservesInv(s, Finalize(creator, artworkId));
    RunEvolves(s1, ops);
  }

  /** An artwork is minted at most once: after a successful mint and any
      further calls, minting it again fails with 103 and changes nothing. */
  lemma MintAtMostOnce(
    s: State, caller: string, artworkId: int, price: int, ops: seq<Op>,
    caller': string, price': int)
    requires Inv(s)
    requires MintNft(s, caller, artworkId, price).result.Ok?
    ensures var t := Run(MintNft(s, caller, artworkId, price).state, ops);
      MintNft(t, caller', artworkId, price') == Step(t, Err(ErrAlreadyExists))
  {
    var s1 := MintNft(s, caller, artworkId, price).state;
    StepPreservesInv(s, Mint(caller, artworkId, price));
    RunEvolves(s1, ops);
  }

  /** Artwork ids are never reused: a later successful creation returns a
      strictly larger id than an earlier one. */
  lemma ArtworkIdsIncrease(
    s: State, caller: string, title: string, description: string, ops: seq<Op>,
    caller': string, title': string, description': string)
    requires Inv(s)
    requires CreateArtwork(s, caller, title, description).result.Ok?
    requires CreateArtwork(Run(CreateArtwork(s, caller, title, description).state, ops),
                           caller', title', description').result.Ok?
    ensures CreateArtwork(s, caller, title, description).result.value
          < CreateArtwork(Run(CreateArtwork(s, caller, title, description).state, ops),
                          caller', title', description').result.value
  {
    var s1 := CreateArtwork(s, caller, title, description).state;
    StepPreservesInv(s, Create(caller, title, description));
    RunEvolves(s1, ops);
  }

  /** NFT ids are never reused: a later successful mint returns a strictly
      larger id than an earlier one. */
  lemma NftIdsIncrease(
    s: State, caller: string, artworkId: int, price: int, ops: seq<Op>,
    caller': string, artworkId': int, price': int)
    requires Inv(s)
    requires MintNft(s, caller, artworkId, price).result.Ok?
    requires MintNft(Run(MintNft(s, caller, artworkId, price).state, ops),
                     caller', artworkId', price').result.Ok?
    ensures MintNft(s, caller, artworkId, price).result.value
          < MintNft(Run(MintNft(s, caller, artworkId, price).state, ops),
                    caller', artworkId', price').result.value
  {
    var s1 := MintNft(s, caller, artworkId, price).state;
    StepPreservesInv(s, Mint(caller, artworkId, price));
    RunEvolves(s1, ops);
  }
}
