/** The customer repository port, over the stored customers in insertion
    order: `existsByCpf`, `findByCpf`, `findById`, `findAll` and `save`. */
module CustomerRepository {
  import opened DomainErrors
  import opened Customers

  /** `existsByCpf`: some stored customer has exactly this CPF. */
  predicate ExistsByCpf(repo: seq<Customer>, cpf: string): (r: bool)
    ensures r <==> exists c :: c in repo && c.cpf == cpf
    ensures r ==> repo != []
  {
    exists i :: 0 <= i < |repo| && repo[i].cpf == cpf
  }

  /** `findById` finds something: some stored customer has this id. */
  predicate ExistsById(repo: seq<Customer>, id: CustomerId): (r: bool)
    ensures r <==> exists c :: c in repo && c.id == id
    ensures r ==> repo != []
  {
    exists i :: 0 <= i < |repo| && repo[i].id == id
  }

  /** Position of the first stored customer satisfying `p`. */
  function FindFirst(repo: seq<Customer>, p: Customer -> bool): (r: Option<nat>)
    ensures r.Some? ==> r.value < |repo| && p(repo[r.value])
    ensures r.Some? ==> forall j :: 0 <= j < r.value ==> !p(repo[j])
    ensures r.None? ==> forall j :: 0 <= j < |repo| ==> !p(repo[j])
    decreases |repo|
  {
    if repo == [] then None
    else if p(repo[0]) then Some(0)
    else
      match FindFirst(repo[1..], p)
      case None => None
      case Some(k) => Some(k + 1)
  }

  /** `findByCpf`: the first stored customer with this CPF, if any. */
  function FindByCpf(repo: seq<Customer>, cpf: string): (r: Option<Customer>)
    ensures r.Some? ==> r.value in repo && r.value.cpf == cpf
    ensures r.None? <==> !ExistsByCpf(repo, cpf)
  {
    match FindFirst(repo, (c: Customer) => c.cpf == cpf)
    case None => None
    case Some(k) => Some(repo[k])
  }

  /** `findById`: the first stored customer with this id, if any. */
  function FindById(repo: seq<Customer>, id: CustomerId): (r: Option<Customer>)
    ensures r.Some? ==> r.value in repo && r.value.id == id
    ensures r.None? <==> !ExistsById(repo, id)
  {
    match FindFirst(repo, (c: Customer) => c.id == id)
    case None => None
    case Some(k) => Some(repo[k])
  }

  /** `save` of a new customer: it is stored after the others. */
  function Save(repo: seq<Customer>, c: Customer): (r: seq<Customer>)
    ensures |r| == |repo| + 1 && r[..|repo|] == repo && r[|repo|] == c
  {
    repo + [c]
  }

  ghost predicate UniqueCpfs(repo: seq<Customer>) {
    forall i, j :: 0 <= i < j < |repo| ==> repo[i].cpf != repo[j].cpf
  }

  ghost predicate UniqueIds(repo: seq<Customer>) {
    forall i, j :: 0 <= i < j < |repo| ==> repo[i].id != repo[j].id
  }

  /** With CPFs unique, looking up a stored customer's CPF finds that
      customer. */
  lemma FindByCpfFindsStored(repo: seq<Customer>, i: nat)
    requires UniqueCpfs(repo) && i < |repo|
    ensures FindByCpf(repo, repo[i].cpf) == Some(repo[i])
  {
    var k := FindFirst(repo, (c: Customer) => c.cpf == repo[i].cpf);
    assert k.Some?;
  }

  /** With ids unique, looking up a stored customer's id finds that customer. */
  lemma FindByIdFindsStored(repo: seq<Customer>, i: nat)
    requires UniqueIds(repo) && i < |repo|
    ensures FindById(repo, repo[i].id) == Some(repo[i])
  {
    var k := FindFirst(repo, (c: Customer) => c.id == repo[i].id);
    assert k.Some?;
  }

  /** Saving a customer whose CPF is not stored keeps CPFs unique. */
  lemma SaveKeepsCpfsUnique(repo: seq<Customer>, c: Customer)
    requires UniqueCpfs(repo) && !ExistsByCpf(repo, c.cpf)
    ensures UniqueCpfs(Save(repo, c))
  {
    var r := Save(repo, c);
    forall i, j | 0 <= i < j < |r|
      ensures r[i].cpf != r[j].cpf
    {
      if j == |repo| {
        assert r[i] == repo[i];
      } else {
        assert r[i] == repo[i] && r[j] == repo[j];
      }
    }
  }

  /** Saving a customer whose CPF is already stored breaks uniqueness. */
  lemma SaveOfStoredCpfDuplicates(repo: seq<Customer>, c: Customer)
    requires ExistsByCpf(repo, c.cpf)
    ensures !UniqueCpfs(Save(repo, c))
  {
    var i :| 0 <= i < |repo| && repo[i].cpf == c.cpf;
    assert Save(repo, c)[i] == repo[i];
  }

  /** Saving a customer with an id above every stored one keeps ids unique. */
  lemma SaveKeepsIdsUnique(repo: seq<Customer>, c: Customer)
    requires UniqueIds(repo)
    requires forall i :: 0 <= i < |repo| ==> repo[i].id < c.id
    ensures UniqueIds(Save(repo, c))
  {
    var r := Save(repo, c);
    forall i, j | 0 <= i < j < |r|
      ensures r[i].id != r[j].id
    {
      assert r[i] == repo[i];
    }
  }
}
