/** The enclave half's copy of what is approved, and the two ways a signature is made with
    it (daemon/kwse.swift). */
module ContextCaches {
  import opened Seconds
  import opened Basics

  /** The longest Touch ID unlock macOS lets an app reuse. */
  const MAXIMUM_REUSE := 300.0

  /** How recent a Touch ID unlock of the Mac may answer a sheet: what is granted, and never
      more than macOS allows. */
  function AllowedReuse(unlockReuse: Float): (reuse: Float)
    ensures reuse.Val? && 0.0 <= reuse.v <= 300.0
    ensures unlockReuse.Val? && unlockReuse.v > 0.0 ==> reuse.v <= unlockReuse.v && (reuse == unlockReuse || reuse.v == 300.0)
    ensures unlockReuse.NaN? || unlockReuse.v <= 0.0 ==> reuse.v == 0.0
  {
    if !Positive(unlockReuse) then ZERO
    else if unlockReuse.v < MAXIMUM_REUSE then unlockReuse
    else Val(MAXIMUM_REUSE)
  }

  class LAContext {
    var reuse: Float
    var authenticated: bool

    constructor (unlockReuse: Float)
      ensures reuse == AllowedReuse(unlockReuse) && !authenticated
    {
      reuse := ZERO;
      authenticated := false;
      if Positive(unlockReuse) {
        reuse := Val(if unlockReuse.v < MAXIMUM_REUSE then unlockReuse.v else MAXIMUM_REUSE);
      }
    }
  }

  class ContextCache {
    var held: map<string, LAContext>
    var secrets: map<string, array<byte>>

    /** No two scopes share a buffer, so wiping one leaves the others whole. */
    ghost predicate Valid()
      reads this
    {
      forall a, b | a in secrets && b in secrets && a != b :: secrets[a] != secrets[b]
    }

    ghost function Buffers(): set<object>
      reads this
    {
      set scope | scope in secrets :: secrets[scope]
    }

    /** The secrets by value. */
    ghost function Contents(): map<string, seq<byte>>
      reads this, Buffers()
    {
      map scope | scope in secrets :: secrets[scope][..]
    }

    constructor ()
      ensures Valid() && held == map[] && Contents() == map[]
    {
      held := map[];
      secrets := map[];
    }

    method Secret(scope: string) returns (secret: Option<seq<byte>>)
      requires Valid()
      ensures secret == if scope in Contents() then Some(Contents()[scope]) else None
    {
      if scope in secrets {
        secret := Some(secrets[scope][..]);
      } else {
        secret := None;
      }
    }

    method Keep(scope: string, secret: seq<byte>)
      requires Valid()
      modifies `secrets
      ensures Valid() && Contents() == old(Contents())[scope := secret]
      ensures forall other | other in old(secrets) && other != scope :: other in secrets && secrets[other] == old(secrets[other])
      ensures scope in secrets && fresh(secrets[scope]) && fresh(Buffers() - old(Buffers()))
    {
      var copy := new byte[|secret|](i requires 0 <= i < |secret| => secret[i]);
      assert copy[..] == secret;
      secrets := secrets[scope := copy];
    }

    /** Overwrites before letting go. */
    method Wipe(scope: string)
      requires Valid()
      modifies `secrets, (if scope in secrets then {secrets[scope]} else {})
      ensures Valid() && secrets == old(secrets) - {scope}
      ensures Contents() == old(Contents()) - {scope}
      ensures scope in old(secrets) ==> Zeroed(old(secrets[scope]))
    {
      if scope in secrets {
        var buffer := secrets[scope];
        for i := 0 to buffer.Length
          invariant forall k | 0 <= k < i :: buffer[k] == 0
          invariant secrets == old(secrets)
          invariant forall other | other in secrets && other != scope :: secrets[other][..] == old(secrets[other][..])
        {
          buffer[i] := 0;
        }
      }
      secrets := secrets - {scope};
    }

    method Forget(scope: string)
      requires Valid()
      modifies this, (if scope in secrets then {secrets[scope]} else {})
      ensures Valid() && held == old(held) - {scope} && secrets == old(secrets) - {scope} && Buffers() <= old(Buffers())
      ensures Contents() == old(Contents()) - {scope}
      ensures scope in old(secrets) ==> Zeroed(old(secrets[scope]))
    {
      held := held - {scope};
      Wipe(scope);
    }

    /** Every scope at once: nothing is held, and every buffer that held a secret is zero. */
    method ForgetAll()
      requires Valid()
      modifies this, Buffers()
      ensures Valid() && held == map[] && Contents() == map[]
      ensures forall scope | scope in old(secrets) :: Zeroed(old(secrets[scope]))
    {
      held := map[];
      var todo := secrets.Keys;
      while todo != {}
        invariant Valid() && held == map[] && secrets.Keys == todo
        invariant forall scope | scope in secrets :: scope in old(secrets) && secrets[scope] == old(secrets[scope])
        invariant forall scope | scope in old(secrets) && scope !in todo :: Zeroed(old(secrets[scope]))
        decreases todo
      {
        var scope :| scope in todo;
        Wipe(scope);
        todo := todo - {scope};
      }
    }

    /** The held context, or a new one; with `hold` what is returned is what is held. */
    method Take(scope: string, hold: bool, unlockReuse: Float) returns (c: LAContext, isNew: bool)
      requires Valid()
      modifies `held
      ensures isNew <==> !(hold && scope in old(held))
      ensures !isNew ==> c == old(held)[scope]
      ensures isNew ==> fresh(c) && !c.authenticated && c.reuse == AllowedReuse(unlockReuse)
      ensures held == if hold then old(held)[scope := c] else old(held)
    {
      if hold && scope in held {
        return held[scope], false;
      }
      c := new LAContext(unlockReuse);
      if hold {
        held := held[scope := c];
      }
      isNew := true;
    }
  }

  ghost predicate Zeroed(buffer: array<byte>)
    reads buffer
  {
    forall k | 0 <= k < buffer.Length :: buffer[k] == 0
  }

  /** How the Touch ID sheet and the enclave answer one call. */
  datatype World = World(touched: bool, agreed: Option<seq<byte>>, signed: Option<seq<byte>>)

  const TOO_LONG := -2
  const DECLINED := -3
  const SIGNED_OUT := -4

  /** Copies a result out, or says it does not fit. */
  function Stored(signed: Option<seq<byte>>, cap: nat): (code: int)
    ensures code == -3 <==> signed.None?
    ensures code == -2 <==> signed.Some? && |signed.value| > cap
    ensures signed.Some? && |signed.value| <= cap ==> code == |signed.value|
  {
    match signed
    case None => DECLINED
    case Some(sig) => if |sig| > cap then TOO_LONG else |sig|
  }

  /** Nobody is asked: the secret is held, or the daemon says a sign-in covers the request. */
  predicate Rides(hold: bool, scope: string, secrets: map<string, seq<byte>>, riding: bool) {
    riding || (hold && scope in secrets)
  }

  /** A Touch ID given wherever the daemon asks for one, and a secret that came of it. */
  predicate Released(approve: bool, world: World) {
    (approve ==> world.touched) && world.agreed.Some?
  }

  function SignInCode(hold: bool, scope: string, secrets: map<string, seq<byte>>, approve: bool, riding: bool,
                      world: World, cap: nat): (code: int)
    ensures code == -4 <==> riding && !(hold && scope in secrets)
    ensures code != -4 ==> (code == -3 <==>
      world.signed.None? || (!(hold && scope in secrets) && ((approve && !world.touched) || world.agreed.None?)))
    ensures code >= 0 ==> world.signed.Some? && code == |world.signed.value| <= cap
  {
    if hold && scope in secrets then Stored(world.signed, cap)
    else if riding then SIGNED_OUT
    else if Released(approve, world) then Stored(world.signed, cap)
    else DECLINED
  }

  function SignInKeeps(hold: bool, scope: string, secrets: map<string, seq<byte>>, approve: bool, riding: bool,
                       world: World): map<string, seq<byte>>
  {
    if hold && !Rides(hold, scope, secrets, riding) && Released(approve, world)
    then secrets[scope := world.agreed.value] else secrets
  }

  /** A signature with a sign-in key. `asked` says the daemon's own check was raised, and
      `reuse` with what leave to be answered by an unlock of the Mac. */
  method SignIn(cache: ContextCache, hold: bool, unlockReuse: Float, scope: string, approve: bool, riding: bool,
                world: World, cap: nat)
      returns (code: int, asked: bool, reuse: Float)
    requires cache.Valid()
    modifies cache`secrets
    ensures cache.Valid() && cache.held == old(cache.held)
    ensures var was := old(cache.Contents());
      && asked == (approve && !Rides(hold, scope, was, riding))
      && code == SignInCode(hold, scope, was, approve, riding, world, cap)
    ensures asked ==> reuse == AllowedReuse(unlockReuse)
    ensures cache.Contents() == SignInKeeps(hold, scope, old(cache.Contents()), approve, riding, world)
    ensures fresh(cache.Buffers() - old(cache.Buffers()))
  {
    asked, reuse := false, ZERO;
    ghost var was := cache.Contents();
    var secret := None;
    if hold {
      secret := cache.Secret(scope);
    }
    if secret.None? {
      if riding {
        return SIGNED_OUT, asked, reuse;
      }
      var ctx := new LAContext(unlockReuse);
      asked, reuse := approve, ctx.reuse;
      if approve {
        var passed := Authenticate(ctx, world);
        if !passed {
          assert cache.Contents() == was;
          return DECLINED, asked, reuse;
        }
      }
      assert cache.Contents() == was;
      if world.agreed.None? {
        return DECLINED, asked, reuse;
      }
      secret := world.agreed;
      if hold {
        cache.Keep(scope, secret.value);
      }
    }
    return Stored(world.signed, cap), asked, reuse;
  }

  /** The daemon's own Touch ID check on a context. */
  method Authenticate(ctx: LAContext, world: World) returns (passed: bool)
    modifies ctx`authenticated
    ensures passed == world.touched && ctx.authenticated == (old(ctx.authenticated) || passed)
  {
    passed := world.touched;
    ctx.authenticated := ctx.authenticated || passed;
  }

  /** A signature with a plain key: the call's own branch for every other kind. */
  method SignPlain(cache: ContextCache, hold: bool, unlockReuse: Float, scope: string, approve: bool, world: World, cap: nat)
      returns (code: int, asked: bool)
    requires cache.Valid()
    modifies cache, (if scope in cache.secrets then {cache.secrets[scope]} else {})
    ensures cache.Valid() && cache.Buffers() <= old(cache.Buffers())
    ensures asked <==> approve && !(hold && scope in old(cache.held))
    ensures code == if asked && !world.touched then -3 else Stored(world.signed, cap)
    ensures asked && !world.touched ==>
      cache.held == old(cache.held) - {scope} && cache.Contents() == old(cache.Contents()) - {scope}
    ensures !(asked && !world.touched) ==> cache.Contents() == old(cache.Contents())
    ensures !(asked && !world.touched) && (!hold || scope in old(cache.held)) ==> cache.held == old(cache.held)
    ensures !(asked && !world.touched) && hold && scope !in old(cache.held) ==> (
      && scope in cache.held && fresh(cache.held[scope])
      && cache.held == old(cache.held)[scope := cache.held[scope]]
      && (approve ==> cache.held[scope].authenticated))
  {
    ghost var was := cache.Contents();
    var ctx, isNew := cache.Take(scope, hold, unlockReuse);
    assert cache.Contents() == was;
    asked := isNew && approve;
    if asked {
      var passed := Authenticate(ctx, world);
      assert cache.Contents() == was;
      if !passed {
        cache.Forget(scope);
        assert cache.held == old(cache.held) - {scope};
        return DECLINED, asked;
      }
    }
    return Stored(world.signed, cap), asked;
  }
}
