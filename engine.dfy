/** The registry as the mutable object it is: three maps and two counters
    updated in place by the six operations. Each method is proved to do what
    the function of the same name in `Ledger` specifies, and to keep the
    registry's invariant. */
module Engine {
  import opened Records
  import Ledger

  class Registry {
    var artists: map<string, Artist>
    var artworks: map<int, Artwork>
    var nfts: map<int, Nft>
    var lastArtworkId: nat
    var lastNftId: nat

    /** The registry's current contents as a `Ledger.State` value. */
    ghost function Model(): Ledger.State
      reads this
    {
      Ledger.State(artists, artworks, nfts, lastArtworkId, lastNftId)
    }

    ghost predicate Valid()
      reads this
    {
      Ledger.Inv(Model())
    }

    /** The reset: empty maps, both counters at zero. */
    constructor ()
      ensures Valid()
      ensures Model() == Ledger.Empty()
    {
      artists := map[];
      artworks := map[];
      nfts := map[];
      lastArtworkId := 0;
      lastNftId := 0;
    }

    method RegisterArtist(caller: string, name: string) returns (r: Result<bool>)
      requires Valid()
      modifies this
      ensures Valid()
      ensures Ledger.RegisterArtist(old(Model()), caller, name) == Ledger.Step(Model(), r)
      ensures r.Err? ==> unchanged(this)
    {
      Ledger.RegisterArtistPreservesInv(Model(), caller, name);
      if caller in artists {
        return Err(ErrAlreadyExists);
      }
      artists := artists[caller := Artist(name, true)];
      return Ok(true);
    }

    method CreateArtwork(caller: string, title: string, description: string) returns (r: Result<nat>)
      requires Valid()
      modifies this
      ensures Valid()
      ensures Ledger.CreateArtwork(old(Model()), caller, title, description) == Ledger.Step(Model(), r)
      ensures r.Err? ==> unchanged(this)
    {
      Ledger.CreateArtworkPreservesInv(Model(), caller, title, description);
      if caller !in artists {
        return Err(ErrUnauthorized);
      }
      lastArtworkId := lastArtworkId + 1;
      var newArtworkId := lastArtworkId;
      artworks := artworks[newArtworkId := Artwork(
        title, description, caller, [caller], [InitialContribution], InitialContribution, false, None)];
      return Ok(newArtworkId);
    }

    method AddContribution(caller: string, artworkId: int, amount: int) returns (r: Result<bool>)
      requires Valid()
      modifies this
      ensures Valid()
      ensures Ledger.AddContribution(old(Model()), caller, artworkId, amount) == Ledger.Step(Model(), r)
      ensures r.Err? ==> unchanged(this)
    {
      Ledger.AddContributionPreservesInv(Model(), caller, artworkId, amount);
      if caller !in artists {
        return Err(ErrUnauthorized);
      }
      if artworkId !in artworks {
        return Err(ErrNotFound);
      }
      var artwork := artworks[artworkId];
      if artwork.isFinalized {
        return Err(ErrUnauthorized);
      }
      artwork := artwork.(collaborators := artwork.collaborators + [caller]);
      artwork := artwork.(contributions := artwork.contributions + [amount]);
      artwork := artwork.(totalContributions := artwork.totalContributions + amount);
      artworks := artworks[artworkId := artwork];
      return Ok(true);
    }

    method FinalizeArtwork(caller: string, artworkId: int) returns (r: Result<bool>)
      requires Valid()
      modifies this
      ensures Valid()
      ensures Ledger.FinalizeArtwork(old(Model()), caller, artworkId) == Ledger.Step(Model(), r)
      ensures r.Err? ==> unchanged(this)
    {
      Ledger.FinalizeArtworkPreservesInv(Model(), caller, artworkId);
      if artworkId !in artworks {
        return Err(ErrNotFound);
      }
      var artwork := artworks[artworkId];
      if artwork.creator != caller {
        return Err(ErrUnauthorized);
      }
      if artwork.isFinalized {
        return Err(ErrUnauthorized);
      }
      artwork := artwork.(isFinalized := true);
      artworks := artworks[artworkId := artwork];
      return Ok(true);
    }

    method MintNft(caller: string, artworkId: int, price: int) returns (r: Result<nat>)
      requires Valid()
      modifies this
      ensures Valid()
      ensures Ledger.MintNft(old(Model()), caller, artworkId, price) == Ledger.Step(Model(), r)
      ensures r.Err? ==> unchanged(this)
    {
      Ledger.MintNftPreservesInv(Model(), caller, artworkId, price);
      if artworkId !in artworks {
        return Err(ErrNotFound);
      }
      var artwork := artworks[artworkId];
      if !artwork.isFinalized {
        return Err(ErrUnauthorized);
      }
      if artwork.nftId.Some? {
        return Err(ErrAlreadyExists);
      }
      lastNftId := lastNftId + 1;
      var newNftId := lastNftId;
      nfts := nfts[newNftId := Nft(artworkId, caller, price)];
      artwork := artwork.(nftId := Some(newNftId));
      artworks := artworks[artworkId := artwork];
      return Ok(newNftId);
    }

    method BuyNft(caller: string, nftId: int) returns (r: Result<bool>)
      requires Valid()
      modifies this
      ensures Valid()
      ensures Ledger.BuyNft(old(Model()), caller, nftId) == Ledger.Step(Model(), r)
      ensures r.Err? ==> unchanged(this)
    {
      Ledger.BuyNftPreservesInv(Model(), caller, nftId);
      if nftId !in nfts {
        return Err(ErrNotFound);
      }
      var nft := nfts[nftId];
      nft := nft.(owner := caller);
      nfts := nfts[nftId := nft];
      return Ok(true);
    }
  }
}
