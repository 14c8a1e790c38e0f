// The contract-wide pause switch of src/common/config.rs: the `state` and
// `template_dao` storage values and the three owner-only endpoints that set them.

module Config {
  import opened Common

  /** Whether the contract accepts sale operations. */
  datatype State = Inactive | Active

  /** The configuration storage as a value: the contract owner (fixed by the host),
      the `state` mapper and the `template_dao` mapper (None while empty). */
  datatype Settings = Settings(owner: Address, state: State, templateDao: Option<Address>)

  /** `setStateActive`: owner only; refuses while no template DAO is stored. */
  function Activation(c: Settings, caller: Address): (r: Result<Settings>)
    ensures caller != c.owner ==> r == Err(OnlyOwner)
    ensures caller == c.owner && c.templateDao == None ==> r == Err(TemplateDaoNotSet)
    ensures r.Ok? <==> caller == c.owner && c.templateDao.Some?
    ensures r.Ok? ==> r.value.state == Active
    ensures r.Ok? ==> r.value.owner == c.owner && r.value.templateDao == c.templateDao
  {
    if caller != c.owner then Err(OnlyOwner)
    else if c.templateDao == None then Err(TemplateDaoNotSet)
    else Ok(c.(state := Active))
  }

  /** `setStateInactive`: owner only; pauses unconditionally. */
  function Deactivation(c: Settings, caller: Address): (r: Result<Settings>)
    ensures r.Err? <==> caller != c.owner
    ensures r.Err? ==> r.error == OnlyOwner
    ensures r.Ok? ==> r.value.state == Inactive
    ensures r.Ok? ==> r.value.owner == c.owner && r.value.templateDao == c.templateDao
  {
    if caller != c.owner then Err(OnlyOwner)
    else Ok(c.(state := Inactive))
  }

  /** `setTemplateDAO`: owner only; stores the address. */
  function TemplateDaoUpdate(c: Settings, caller: Address, address: Address): (r: Result<Settings>)
    ensures r.Err? <==> caller != c.owner
    ensures r.Err? ==> r.error == OnlyOwner
    ensures r.Ok? ==> r.value.templateDao == Some(address)
    ensures r.Ok? ==> r.value.owner == c.owner && r.value.state == c.state
  {
    if caller != c.owner then Err(OnlyOwner)
    else Ok(c.(templateDao := Some(address)))
  }

  /** Activating twice leaves the same settings as activating once. */
  lemma ActivationIdempotent(c: Settings, caller: Address)
    requires Activation(c, caller).Ok?
    ensures Activation(Activation(c, caller).value, caller) == Activation(c, caller)
  {
  }

  /** Pausing twice leaves the same settings as pausing once. */
  lemma DeactivationIdempotent(c: Settings, caller: Address)
    requires Deactivation(c, caller).Ok?
    ensures Deactivation(Deactivation(c, caller).value, caller) == Deactivation(c, caller)
  {
  }

  /** Once the owner has stored a template DAO, the owner can activate the contract. */
  lemma TemplateDaoEnablesActivation(c: Settings, address: Address)
    ensures TemplateDaoUpdate(c, c.owner, address).Ok?
    ensures Activation(TemplateDaoUpdate(c, c.owner, address).value, c.owner)
         == Ok(Settings(c.owner, Active, Some(address)))
  {
  }

  /** The `ConfigModule` storage of one deployed contract. */
  class ConfigModule {
    const owner: Address
    var state: State
    var templateDao: Option<Address>

    /** The storage as a value. */
    function Current(): Settings
      reads this
    {
      Settings(owner, state, templateDao)
    }

    /** Fresh storage: both mappers empty; an empty `state` decodes as its first variant. */
    constructor (owner: Address)
      ensures Current() == Settings(owner, Inactive, None)
    {
      this.owner := owner;
      state := Inactive;
      templateDao := None;
    }

    method SetStateActive(caller: Address) returns (r: Outcome)
      modifies this
      ensures match Activation(old(Current()), caller)
              case Ok(c) => r == Pass && Current() == c
              case Err(e) => r == Fail(e) && Current() == old(Current())
    {
      if caller != owner {
        return Fail(OnlyOwner);
      }
      if templateDao == None {
        return Fail(TemplateDaoNotSet);
      }
      state := Active;
      r := Pass;
    }

    method SetStateInactive(caller: Address) returns (r: Outcome)
      modifies this
      ensures match Deactivation(old(Current()), caller)
              case Ok(c) => r == Pass && Current() == c
              case Err(e) => r == Fail(e) && Current() == old(Current())
    {
      if caller != owner {
        return Fail(OnlyOwner);
      }
      state := Inactive;
      r := Pass;
    }

    method SetTemplateDao(caller: Address, address: Address) returns (r: Outcome)
      modifies this
      ensures match TemplateDaoUpdate(old(Current()), caller, address)
              case Ok(c) => r == Pass && Current() == c
              case Err(e) => r == Fail(e) && Current() == old(Current())
    {
      if caller != owner {
        return Fail(OnlyOwner);
      }
      templateDao := Some(address);
      r := Pass;
    }
  }
}
