/** The `/providers` routes (backend/routers/providers.py): license uniqueness on create,
    404 on an unknown id, and the skip/limit listing. */
module ProvidersRouter {
  import opened Wrappers
  import opened Http
  import opened Crud

  /** No two providers share a license number. */
  ghost predicate UniqueLicenses(providers: seq<Provider>) {
    forall i, j :: 0 <= i < j < |providers| ==> providers[i].licenseNumber != providers[j].licenseNumber
  }

  /** POST /providers/: 400 when the license number is taken; otherwise the new provider,
      appended as the only change to the store. */
  method CreateProvider(db: Database, provider: ProviderCreate) returns (r: Reply<int>)
    modifies db`providers
    ensures old(db.GetProviderByLicense(provider.licenseNumber)).Some? ==>
              r == HttpException(400, "Provider with this license number already exists")
              && db.providers == old(db.providers)
    ensures old(db.GetProviderByLicense(provider.licenseNumber)).None? ==>
              && db.providers == old(db.providers)
                   + [Provider(provider.licenseNumber, provider.name, provider.specialty, provider.verified)]
              && r == Success(|db.providers|)
    ensures UniqueLicenses(old(db.providers)) ==> UniqueLicenses(db.providers)
  {
    if db.GetProviderByLicense(provider.licenseNumber).Some? {
      return HttpException(400, "Provider with this license number already exists");
    }
    var id := db.CreateProvider(provider);
    r := Success(id);
  }

  /** GET /providers/{provider_id}. */
  function ReadProvider(db: Database, providerId: int): (r: Reply<Provider>)
    reads db
    ensures r.Success? <==> HasId(db.providers, providerId)
    ensures r.Success? ==> r.body == db.providers[providerId - 1]
    ensures r.HttpException? ==> r == HttpException(404, "Provider not found")
  {
    match db.GetProvider(providerId)
    case None => HttpException(404, "Provider not found")
    case Some(p) => Success(p)
  }

  /** GET /providers/?skip&limit: the providers from position `skip` on, at most `limit`. */
  function ReadProviders(db: Database, skip: nat, limit: nat): (r: seq<Provider>)
    reads db
    ensures |r| == if skip >= |db.providers| then 0 else Min(limit, |db.providers| - skip)
    ensures forall i :: 0 <= i < |r| ==> r[i] == db.providers[skip + i]
  {
    Page(db.providers, skip, limit)
  }

  /** Creating the same license twice: the second request is refused with 400 and leaves
      the first provider as the only one with that license. */
  method CreateProviderTwice(db: Database, provider: ProviderCreate) returns (first: Reply<int>, second: Reply<int>)
    modifies db`providers
    ensures second == HttpException(400, "Provider with this license number already exists")
    ensures |db.providers| <= |old(db.providers)| + 1
    ensures UniqueLicenses(old(db.providers)) ==> UniqueLicenses(db.providers)
  {
    ghost var existing := db.GetProviderByLicense(provider.licenseNumber);
    first := CreateProvider(db, provider);
    ghost var j := if existing.Some? then existing.value - 1 else |db.providers| - 1;
    assert db.providers[j].licenseNumber == provider.licenseNumber;
    second := CreateProvider(db, provider);
  }
}
