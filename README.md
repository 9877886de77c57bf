# Collaborative digital-art registry, modelled in Dafny

This project models the state-transition engine of a collaborative digital-art
registry. Artists register under a caller identity. A registered artist creates an
artwork and gets the initial contribution weight of 100. Other registered artists
(or the creator again) append weighted contributions until the creator finalizes the
artwork. Anyone may then mint the artwork's single NFT. Anyone may buy an existing
NFT, which only records the new owner. Every operation returns `ok` with a value or
`err` with code 101 (not found), 102 (unauthorized) or 103 (already exists). A
failing call changes nothing.

The engine in the repository is an in-memory mock. It is kept as module-level state:
three maps (artists, artworks, NFTs) and two id counters. The model follows it file
by file:

- `records.dfy` (module `Records`): the result type, the error codes, the three kinds
  of record, and `Sum` over contribution weights.
- `ledger.dfy` (module `Ledger`): the state as a value, and the six operations as
  functions returning the new state and the result. These functions are the
  specification. It also holds the invariant `Inv` and the "later state" relation
  `Evolves`. Its lemmas are about single calls and about any sequence of calls
  (`Run`).
- `engine.dfy` (module `Engine`): class `Registry`, with the five pieces of state as
  fields and one method per operation. The methods update the fields in place. Each
  method is proved to keep `Valid()` and to equal the `Ledger` function of the same
  name. Each also states that a failing call leaves the object unchanged.
- `scenarios.dfy` (module `Scenarios`): the repository's test cases, each run on a
  fresh `Registry`, with what the test checks as the method's postcondition.

## Model

| member | source | states |
|---|---|---|
| Records.SumAppend | tests/digital-art-collaboration.test.ts:49-50 | pushing a weight onto the contributions adds that weight to their sum, so `totalContributions += amount` keeps the total equal to the sum |
| Ledger.Empty | tests/digital-art-collaboration.test.ts:4-8 | the initial state has no artists, artworks or NFTs and both counters at 0, and it satisfies the invariant |
| Ledger.RegisterArtist | tests/digital-art-collaboration.test.ts:11-17 | fails with 103 exactly when the caller is already present, and then the state is unchanged; otherwise returns ok true, adds only the caller with `{name, registered: true}`, and leaves every other profile and all other state unchanged |
| Ledger.NewArtwork | tests/digital-art-collaboration.test.ts:24-33 | a new artwork is well formed: the creator is the sole collaborator with weight 100, the total is 100, it is not finalized and has no NFT |
| Ledger.CreateArtwork | tests/digital-art-collaboration.test.ts:19-35 | fails with 102 exactly when the caller is unregistered, and then the counter and the artworks are unchanged; on success returns old `lastArtworkId`+1, which becomes the new counter and which no existing artwork holds, stores the new artwork under it, and changes nothing else |
| Ledger.AddContribution | tests/digital-art-collaboration.test.ts:37-53 | the guards and their order: unregistered caller gives 102, missing artwork 101, finalized artwork 102, and every error leaves the state unchanged; on success appends the caller and the amount and adds the amount to the total, even for a repeat contributor; no other field or record changes |
| Ledger.FinalizeArtwork | tests/digital-art-collaboration.test.ts:55-69 | missing artwork gives 101; a caller who is not the creator, or an artwork already finalized, gives 102; errors change nothing; success requires an unfinalized artwork and sets only its `isFinalized` |
| Ledger.MintNft | tests/digital-art-collaboration.test.ts:71-87 | missing artwork gives 101, unfinalized 102, NFT already linked 103, and errors change nothing; any caller may mint; success returns old `lastNftId`+1, which no existing NFT holds, stores `{artworkId, owner: caller, price}` under it, links the artwork to it, and changes nothing else |
| Ledger.BuyNft | tests/digital-art-collaboration.test.ts:89-98 | fails with 101 exactly when the NFT is absent, with no change; on success the buyer becomes the owner, the NFT keeps its artwork and price, and no other NFT, artwork or artist changes |
| Ledger.RegisterArtistPreservesInv | tests/digital-art-collaboration.test.ts:11-17 | registration keeps the registry invariant |
| Ledger.CreateArtworkPreservesInv | tests/digital-art-collaboration.test.ts:19-35 | creation keeps the invariant, including ids within 1..`lastArtworkId` |
| Ledger.AddContributionPreservesInv | tests/digital-art-collaboration.test.ts:48-51 | a contribution keeps collaborators and contributions of equal length and the total equal to the sum of the contributions |
| Ledger.FinalizeArtworkPreservesInv | tests/digital-art-collaboration.test.ts:55-69 | finalization keeps the invariant |
| Ledger.MintNftPreservesInv | tests/digital-art-collaboration.test.ts:82-85 | minting keeps the invariant, including the one-to-one link between an NFT and its artwork |
| Ledger.BuyNftPreservesInv | tests/digital-art-collaboration.test.ts:89-98 | a purchase keeps the invariant |
| Ledger.StepPreservesInv | tests/digital-art-collaboration.test.ts:11-98 | every operation, on every path, keeps the invariant |
| Ledger.StepEvolves | tests/digital-art-collaboration.test.ts:11-98 | every operation only moves forward: counters never decrease; no record is deleted; profiles, titles and creators never change; weights only grow at the end; finalization and the NFT link are never undone; an NFT keeps its artwork and price |
| Ledger.RunPreservesInv | tests/digital-art-collaboration.test.ts:11-98 | any sequence of operations keeps the invariant |
| Ledger.ReachableInv | tests/digital-art-collaboration.test.ts:4-98 | every state reached from the empty registry satisfies the invariant |
| Ledger.RunEvolves | tests/digital-art-collaboration.test.ts:11-98 | any sequence of operations only moves forward in the sense of `StepEvolves` |
| Ledger.NftsHaveDistinctArtworks | tests/digital-art-collaboration.test.ts:79-85 | in a reachable state no two NFTs belong to the same artwork |
| Ledger.RegistrationIsPermanent | tests/digital-art-collaboration.test.ts:12-15 | after a successful registration and any further calls, the profile is still there and unchanged, and registering again fails with 103 without change |
| Ledger.FinalizedArtworkIsFrozen | tests/digital-art-collaboration.test.ts:45-47 | after a successful finalization and any further calls, the artwork is still finalized with the same collaborators, contributions and total; any contribution to it, and any further finalization, fails with 102 without change |
| Ledger.MintAtMostOnce | tests/digital-art-collaboration.test.ts:79-81 | after a successful mint and any further calls, minting the same artwork again fails with 103 without change |
| Ledger.ArtworkIdsIncrease | tests/digital-art-collaboration.test.ts:23 | a later successful creation returns a strictly larger artwork id than an earlier one |
| Ledger.NftIdsIncrease | tests/digital-art-collaboration.test.ts:82 | a later successful mint returns a strictly larger NFT id than an earlier one |
| Engine.Registry.constructor | tests/digital-art-collaboration.test.ts:101-107 | the reset gives the empty state, which is valid |
| Engine.Registry.RegisterArtist | tests/digital-art-collaboration.test.ts:11-17 | keeps `Valid()`, leaves the object unchanged on error, and its new fields and result are those of `Ledger.RegisterArtist` |
| Engine.Registry.CreateArtwork | tests/digital-art-collaboration.test.ts:19-35 | keeps `Valid()`, leaves the object unchanged on error, and its new fields and result are those of `Ledger.CreateArtwork` |
| Engine.Registry.AddContribution | tests/digital-art-collaboration.test.ts:37-53 | keeps `Valid()`, leaves the object unchanged on error, and its new fields and result are those of `Ledger.AddContribution` |
| Engine.Registry.FinalizeArtwork | tests/digital-art-collaboration.test.ts:55-69 | keeps `Valid()`, leaves the object unchanged on error, and its new fields and result are those of `Ledger.FinalizeArtwork` |
| Engine.Registry.MintNft | tests/digital-art-collaboration.test.ts:71-87 | keeps `Valid()`, leaves the object unchanged on error, and its new fields and result are those of `Ledger.MintNft` |
| Engine.Registry.BuyNft | tests/digital-art-collaboration.test.ts:89-98 | keeps `Valid()`, leaves the object unchanged on error, and its new fields and result are those of `Ledger.BuyNft` |
| Scenarios.RegisterOnce | tests/digital-art-collaboration.test.ts:109-114 | a first registration returns ok true and stores `{name: "John Doe", registered: true}` |
| Scenarios.RegisterTwice | tests/digital-art-collaboration.test.ts:116-121 | a second registration of the same caller returns err 103 |
| Scenarios.CreateFirstArtwork | tests/digital-art-collaboration.test.ts:123-132 | the first artwork gets id 1 and records its title and creator; before registration the same call returns err 102 |
| Scenarios.Contribute | tests/digital-art-collaboration.test.ts:134-145 | a second artist's contribution of 50 returns ok, appears in collaborators and contributions, and brings the total to 150 |
| Scenarios.ContributeAgain | tests/digital-art-collaboration.test.ts:37-53 | the creator's repeat contribution is appended as a second entry, giving collaborators `["artist1", "artist1"]` and total 150 |
| Scenarios.Finalize | tests/digital-art-collaboration.test.ts:147-155 | finalization by another artist returns 102; by the creator it returns ok and sets the flag; a second finalization returns 102 |
| Scenarios.Mint | tests/digital-art-collaboration.test.ts:157-169 | minting before finalization returns 102; after it the NFT gets id 1 with artwork 1, owner "artist1" and price 1000; a second mint returns 103 |
| Scenarios.Buy | tests/digital-art-collaboration.test.ts:171-182 | buying NFT 1 returns ok and makes "collector" the owner with artwork and price kept; buying a missing NFT returns 101 |

## Left out

- The test framework (`describe`, `it`, `expect`, `beforeEach`): the reset is the `Registry` constructor, and the cases are the `Scenarios` methods.
- STX payment and royalty distribution in `buyNft`: the source has only a comment there and no code.
- JavaScript `number` semantics: amounts, prices and ids are Dafny `int`. Fractional values, NaN and floating-point rounding of `+=` are not modelled. As in the source, amounts and prices have no sign or range check.
- Object aliasing: the source mutates the stored artwork or NFT object and then calls `set` again with it. The model replaces the map entry with an updated record value, which has the same observable effect.
- Untyped map keys: artist keys are strings, and artwork and NFT keys are integers.
- Concurrency: the engine is sequential, and each call is atomic.
