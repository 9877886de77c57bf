/** The registry's test cases, each run on a freshly reset `Engine.Registry`;
    what the cases check becomes the postcondition of the method. */
module Scenarios {
  import opened Records
  import opened Engine

  /** Registering a new caller succeeds and stores the profile. */
  method RegisterOnce() returns (r: Result<bool>, profile: Artist)
    ensures r == Ok(true)
    ensures profile == Artist("John Doe", true)
  {
    var reg := new Registry();
    r := reg.RegisterArtist("artist1", "John Doe");
    profile := reg.artists["artist1"];
  }

  /** Registering the same caller twice fails with 103 the second time. */
  method RegisterTwice() returns (r: Result<bool>)
    ensures r == Err(ErrAlreadyExists)
  {
    var reg := new Registry();
    var _ := reg.RegisterArtist("artist1", "John Doe");
    r := reg.RegisterArtist("artist1", "John Doe");
  }

  /** A registered artist's first artwork gets id 1 and records its title
      and creator; an unregistered caller is refused with 102. */
  method CreateFirstArtwork() returns (r: Result<nat>, artwork: Artwork, stranger: Result<nat>)
    ensures r == Ok(1)
    ensures artwork.title == "My Artwork" && artwork.creator == "artist1"
    ensures stranger == Err(ErrUnauthorized)
  {
    var reg := new Registry();
    stranger := reg.CreateArtwork("nobody", "My Artwork", "A beautiful piece");
    var _ := reg.RegisterArtist("artist1", "John Doe");
    r := reg.CreateArtwork("artist1", "My Artwork", "A beautiful piece");
    artwork := reg.artworks[1];
  }

  /** A second artist's contribution of 50 is appended after the creator's 100. */
  method Contribute() returns (r: Result<bool>, after: Artwork)
    ensures r == Ok(true)
    ensures after.collaborators == ["artist1", "artist2"] && after.contributions == [100, 50]
    ensures after.totalContributions == 150
  {
    var reg := new Registry();
    var _ := reg.RegisterArtist("artist1", "John Doe");
    var _ := reg.RegisterArtist("artist2", "Jane Doe");
    var _ := reg.CreateArtwork("artist1", "My Artwork", "A beautiful piece");
    r := reg.AddContribution("artist2", 1, 50);
    after := reg.artworks[1];
  }

  /** A repeat contribution by the creator is appended again, not merged. */
  method ContributeAgain() returns (r: Result<bool>, after: Artwork)
    ensures r == Ok(true)
    ensures after.collaborators == ["artist1", "artist1"] && after.contributions == [100, 50]
    ensures after.totalContributions == 150
  {
    var reg := new Registry();
    var _ := reg.RegisterArtist("artist1", "John Doe");
    var _ := reg.CreateArtwork("artist1", "My Artwork", "A beautiful piece");
    r := reg.AddContribution("artist1", 1, 50);
    after := reg.artworks[1];
  }

  /** Finalization by another artist is refused with 102, by the creator
      succeeds, and a second one is refused with 102. */
  method Finalize() returns (byOther: Result<bool>, r: Result<bool>, finalized: bool, twice: Result<bool>)
    ensures byOther == Err(ErrUnauthorized)
    ensures r == Ok(true) && finalized
    ensures twice == Err(ErrUnauthorized)
  {
    var reg := new Registry();
    var _ := reg.RegisterArtist("artist1", "John Doe");
    var _ := reg.RegisterArtist("artist2", "Jane Doe");
    var _ := reg.CreateArtwork("artist1", "My Artwork", "A beautiful piece");
    byOther := reg.FinalizeArtwork("artist2", 1);
    r := reg.FinalizeArtwork("artist1", 1);
    finalized := reg.artworks[1].isFinalized;
    twice := reg.FinalizeArtwork("artist1", 1);
  }

  /** Minting before finalization is refused with 102; after it, the first
      NFT gets id 1 and records artwork, owner and price; a second mint of
      the same artwork is refused with 103. */
  method Mint() returns (early: Result<nat>, r: Result<nat>, nft: Nft, twice: Result<nat>)
    ensures early == Err(ErrUnauthorized)
    ensures r == Ok(1)
    ensures nft == Nft(1, "artist1", 1000)
    ensures twice == Err(ErrAlreadyExists)
  {
    var reg := new Registry();
    var _ := reg.RegisterArtist("artist1", "John Doe");
    var _ := reg.CreateArtwork("artist1", "My Artwork", "A beautiful piece");
    early := reg.MintNft("artist1", 1, 1000);
    var _ := reg.FinalizeArtwork("artist1", 1);
    r := reg.MintNft("artist1", 1, 1000);
    nft := reg.nfts[1];
    twice := reg.MintNft("artist1", 1, 1000);
  }

  /** Buying an existing NFT makes the buyer its owner and keeps its artwork
      and price; buying a missing one is refused with 101. */
  method Buy() returns (r: Result<bool>, nft: Nft, missing: Result<bool>)
    ensures r == Ok(true)
    ensures nft == Nft(1, "collector", 1000)
    ensures missing == Err(ErrNotFound)
  {
    var reg := new Registry();
    var _ := reg.RegisterArtist("artist1", "John Doe");
    var _ := reg.RegisterArtist("collector", "Art Collector");
    var _ := reg.CreateArtwork("artist1", "My Artwork", "A beautiful piece");
    var _ := reg.FinalizeArtwork("artist1", 1);
    assert reg.nfts == map[] && reg.lastNftId == 0 && reg.artworks[1].isFinalized;
    var _ := reg.MintNft("artist1", 1, 1000);
    assert reg.nfts == map[1 := Nft(1, "artist1", 1000)];
    r := reg.BuyNft("collector", 1);
    nft := reg.nfts[1];
    missing := reg.BuyNft("collector", 2);
  }
}
