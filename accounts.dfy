/** The user loops of the four translators. Every loop instantiates each user's account in
    order and stops at the first account that cannot be instantiated; outbound loops let a
    later matching account overwrite the fields an earlier one set, inbound loops collect
    one canonical user per matching account. */
module Accounts {
  import opened Wrappers
  import opened Legacy
  import opened Strings
  import opened Seqs

  /** How a translator words the error of a failed instantiation: outbound and most inbound
      loops name the account type, the Shadowsocks inbound loop says "create account". */
  datatype Cause = GetInstance | CreateAccount

  /** The text of the error a failed instantiation aborts a translator with. */
  function InstanceError(u: User, c: Cause): string
    requires u.account.instance.Err?
  {
    match c
    case GetInstance => "get instance of " + u.account.typeName + ": " + u.account.instance.error
    case CreateAccount => "create account: " + u.account.instance.error
  }

  /** True when every user before index `i` has an account that instantiates. */
  ghost predicate OkBefore(users: seq<User>, i: int)
    requires 0 <= i <= |users|
  {
    forall j :: 0 <= j < i ==> users[j].account.instance.Ok?
  }

  /** The instantiated accounts of `users`, in order, or the error of the first user whose
      account fails to instantiate. */
  function Instances(users: seq<User>, c: Cause): (r: Result<seq<Account>>)
    ensures r.Ok? <==> forall i :: 0 <= i < |users| ==> users[i].account.instance.Ok?
    ensures r.Ok? ==> |r.value| == |users| && forall i :: 0 <= i < |users| ==> users[i].account.instance == Ok(r.value[i])
    ensures r.Err? ==> exists i :: 0 <= i < |users| && OkBefore(users, i) && users[i].account.instance.Err? && r.error == InstanceError(users[i], c)
    decreases |users|
  {
    if |users| == 0 then Ok([])
    else if users[0].account.instance.Err? then
      assert OkBefore(users, 0);
      Err(InstanceError(users[0], c))
    else
      match Instances(users[1..], c) {
        case Ok(rest) => Ok([users[0].account.instance.value] + rest)
        case Err(e) =>
          assert forall i :: 0 <= i < |users| - 1 && OkBefore(users[1..], i) ==> OkBefore(users, i + 1);
          Err(e)
      }
  }

  /** The outbound user loop: instantiate each account in order, abort on the first failure,
      and let every selected account overwrite the state. */
  method OverwriteLoop<T>(users: seq<User>, c: Cause, sel: Account -> Option<T>, init: T) returns (r: Result<T>)
    ensures Instances(users, c).Err? ==> r == Err(Instances(users, c).error)
    ensures Instances(users, c).Ok? ==> r == Ok(LastPicked(Instances(users, c).value, sel, init))
  {
    var state := init;
    var i := 0;
    ghost var seen: seq<Account> := [];
    while i < |users|
      invariant 0 <= i <= |users| && |seen| == i
      invariant Instantiated(users, seen)
      invariant state == LastPicked(seen, sel, init)
    {
      var u := users[i];
      if u.account.instance.Err? {
        FailsAt(users, c, i, seen);
        return Err(InstanceError(u, c));
      }
      var a := u.account.instance.value;
      LastPickedSnoc(seen, a, sel, init);
      InstantiatedSnoc(users, seen, a);
      if sel(a).Some? {
        state := sel(a).value;
      }
      seen := seen + [a];
      i := i + 1;
    }
    InstancesOfPrefix(users, c, i, seen);
    r := Ok(state);
  }

  /** The first `|seen|` users instantiate to the accounts `seen`. */
  predicate Instantiated(users: seq<User>, seen: seq<Account>) {
    |seen| <= |users| && forall j :: 0 <= j < |seen| ==> users[j].account.instance == Ok(seen[j])
  }

  /** The next user's account extends the instantiated prefix. */
  lemma InstantiatedSnoc(users: seq<User>, seen: seq<Account>, a: Account)
    requires Instantiated(users, seen) && |seen| < |users| && users[|seen|].account.instance == Ok(a)
    ensures Instantiated(users, seen + [a])
  {
  }

  /** A prefix whose users all have instantiating accounts gives those accounts. */
  lemma InstancesOfPrefix(users: seq<User>, c: Cause, i: nat, seen: seq<Account>)
    requires i <= |users| && |seen| == i
    requires Instantiated(users, seen)
    ensures Instances(users[..i], c) == Ok(seen)
    ensures i == |users| ==> Instances(users, c) == Ok(seen)
  {
    assert i == |users| ==> users[..i] == users;
    var p := users[..i];
    assert forall j :: 0 <= j < i ==> p[j] == users[j];
    assert Instances(p, c).value == seen;
  }

  /** A failing user after users whose accounts all instantiate makes the loop's error. */
  lemma FailsAt(users: seq<User>, c: Cause, i: nat, seen: seq<Account>)
    requires i < |users| && |seen| == i && users[i].account.instance.Err?
    requires Instantiated(users, seen)
    ensures Instances(users, c) == Err(InstanceError(users[i], c))
  {
    InstancesOfPrefix(users, c, i, seen);
    FirstFailure(users, c, i);
  }

  /** Extending an all-ok prefix by one more instantiating user extends the accounts by one. */
  lemma {:induction false} InstancesSnoc(users: seq<User>, c: Cause, i: nat, seen: seq<Account>)
    requires i < |users| && Instances(users[..i], c) == Ok(seen) && users[i].account.instance.Ok?
    ensures Instances(users[..i + 1], c) == Ok(seen + [users[i].account.instance.value])
  {
    var p := users[..i + 1];
    var want := seen + [users[i].account.instance.value];
    forall j | 0 <= j < i + 1 ensures p[j].account.instance == Ok(want[j]) {
      if j < i {
        assert p[j] == users[..i][j];
      }
    }
    var q := Instances(p, c);
    assert q.Ok?;
    assert q.value == want;
  }

  /** A failing user after an all-ok prefix makes the whole list fail with its error. */
  lemma {:induction false} FirstFailure(users: seq<User>, c: Cause, i: nat)
    requires i < |users| && Instances(users[..i], c).Ok? && users[i].account.instance.Err?
    ensures Instances(users, c) == Err(InstanceError(users[i], c))
    decreases i
  {
    assert OkBefore(users, i) by {
      forall j | 0 <= j < i ensures users[j].account.instance.Ok? {
        assert users[..i][j] == users[j];
      }
    }
    if i > 0 {
      assert users[1..][..i - 1] == users[1..i];
      assert Instances(users[..i], c) == Ok([users[0].account.instance.value] + Instances(users[1..i], c).value) by {
        assert users[..i][0] == users[0];
        assert users[..i][1..] == users[1..i];
      }
      FirstFailure(users[1..], c, i - 1);
    }
  }

  /** A VMess account whose enabled tests mention authenticated length. */
  predicate AsksAuthenticatedLength(a: Account) {
    a.VMessAccount? && Contains(a.testsEnabled, "AuthenticatedLength")
  }

  /** The VMess outbound flag: true exactly when some VMess account lists the
      authenticated-length test; once set, later accounts never clear it. */
  function AuthenticatedLength(accounts: seq<Account>): (r: bool)
    ensures r <==> exists i :: 0 <= i < |accounts| && AsksAuthenticatedLength(accounts[i])
    decreases |accounts|
  {
    if |accounts| == 0 then false
    else
      var prefix := accounts[..|accounts| - 1];
      var a := accounts[|accounts| - 1];
      assert forall i :: 0 <= i < |prefix| ==> prefix[i] == accounts[i];
      AuthenticatedLength(prefix) || AsksAuthenticatedLength(a)
  }

  /** One more account raises the flag iff it asks for authenticated length. */
  lemma AuthenticatedLengthSnoc(accounts: seq<Account>, a: Account)
    ensures AuthenticatedLength(accounts + [a]) == (AuthenticatedLength(accounts) || AsksAuthenticatedLength(a))
  {
    assert (accounts + [a])[..|accounts|] == accounts;
  }

  /** The VMess outbound loop: like `OverwriteLoop`, and it also raises the
      authenticated-length flag for every VMess account that asks for it. */
  method VMessLoop<T>(users: seq<User>, sel: Account -> Option<T>, init: T) returns (r: Result<(T, bool)>)
    ensures Instances(users, GetInstance).Err? ==> r == Err(Instances(users, GetInstance).error)
    ensures Instances(users, GetInstance).Ok? ==>
      r == Ok((LastPicked(Instances(users, GetInstance).value, sel, init), AuthenticatedLength(Instances(users, GetInstance).value)))
  {
    var state, authLen := init, false;
    var i := 0;
    ghost var seen: seq<Account> := [];
    while i < |users|
      invariant 0 <= i <= |users| && |seen| == i
      invariant Instantiated(users, seen)
      invariant state == LastPicked(seen, sel, init)
      invariant authLen == AuthenticatedLength(seen)
    {
      var u := users[i];
      if u.account.instance.Err? {
        FailsAt(users, GetInstance, i, seen);
        return Err(InstanceError(u, GetInstance));
      }
      var a := u.account.instance.value;
      LastPickedSnoc(seen, a, sel, init);
      InstantiatedSnoc(users, seen, a);
      AuthenticatedLengthSnoc(seen, a);
      if sel(a).Some? {
        state := sel(a).value;
      }
      if AsksAuthenticatedLength(a) {
        authLen := true;
      }
      seen := seen + [a];
      i := i + 1;
    }
    InstancesOfPrefix(users, GetInstance, i, seen);
    r := Ok((state, authLen));
  }

  /** True when `conv` accepts every user with its account. */
  predicate AllAccepted<U>(users: seq<User>, accounts: seq<Account>, conv: (string, Account) -> Option<U>)
    requires |users| == |accounts|
  {
    forall i :: 0 <= i < |users| ==> conv(users[i].email, accounts[i]).Some?
  }

  /** The canonical users an inbound loop collects: one per account `conv` accepts, built from
      the user's email and account, in source order. */
  function Collected<U>(users: seq<User>, accounts: seq<Account>, conv: (string, Account) -> Option<U>): (r: seq<U>)
    requires |users| == |accounts|
    ensures |r| <= |users|
    decreases |users|
  {
    if |users| == 0 then []
    else
      var n := |users| - 1;
      var prev := Collected(users[..n], accounts[..n], conv);
      match conv(users[n].email, accounts[n]) {
        case Some(x) => prev + [x]
        case None => prev
      }
  }

  /** When `conv` accepts every user, there is exactly one canonical user per source user,
      in source order. */
  lemma {:induction false} CollectedAccepted<U>(users: seq<User>, accounts: seq<Account>, conv: (string, Account) -> Option<U>)
    requires |users| == |accounts| && AllAccepted(users, accounts, conv)
    ensures |Collected(users, accounts, conv)| == |users|
    ensures forall i :: 0 <= i < |users| ==> Some(Collected(users, accounts, conv)[i]) == conv(users[i].email, accounts[i])
    decreases |users|
  {
    if |users| > 0 {
      var n := |users| - 1;
      assert forall i :: 0 <= i < n ==> users[..n][i] == users[i] && accounts[..n][i] == accounts[i];
      CollectedAccepted(users[..n], accounts[..n], conv);
    }
  }

  /** One more user and account: the collected users grow by its canonical user, if any. */
  lemma CollectedSnoc<U>(users: seq<User>, accounts: seq<Account>, u: User, a: Account, conv: (string, Account) -> Option<U>)
    requires |users| == |accounts|
    ensures Collected(users + [u], accounts + [a], conv) ==
      if conv(u.email, a).Some? then Collected(users, accounts, conv) + [conv(u.email, a).value] else Collected(users, accounts, conv)
  {
    assert (users + [u])[..|users|] == users;
    assert (accounts + [a])[..|accounts|] == accounts;
  }

  /** `CollectedSnoc` for the next user of a prefix of `users`. */
  lemma CollectedTake<U>(users: seq<User>, accounts: seq<Account>, i: nat, a: Account, conv: (string, Account) -> Option<U>)
    requires i < |users| && |accounts| == i
    ensures Collected(users[..i + 1], accounts + [a], conv) ==
      if conv(users[i].email, a).Some? then Collected(users[..i], accounts, conv) + [conv(users[i].email, a).value]
      else Collected(users[..i], accounts, conv)
  {
    assert users[..i + 1] == users[..i] + [users[i]];
    CollectedSnoc(users[..i], accounts, users[i], a, conv);
  }

  /** The whole prefix of `users` collects what `users` does. */
  lemma CollectedWhole<U>(users: seq<User>, accounts: seq<Account>, conv: (string, Account) -> Option<U>)
    requires |users| == |accounts|
    ensures Collected(users[..|users|], accounts, conv) == Collected(users, accounts, conv)
  {
    assert users[..|users|] == users;
  }

  /** The inbound user loop: instantiate each account in order, abort on the first failure,
      and append one canonical user per accepted account. */
  method CollectLoop<U>(users: seq<User>, conv: (string, Account) -> Option<U>) returns (r: Result<seq<U>>)
    ensures Instances(users, GetInstance).Err? ==> r == Err(Instances(users, GetInstance).error)
    ensures Instances(users, GetInstance).Ok? ==> r == Ok(Collected(users, Instances(users, GetInstance).value, conv))
  {
    var out: seq<U> := [];
    var i := 0;
    ghost var seen: seq<Account> := [];
    while i < |users|
      invariant 0 <= i <= |users| && |seen| == i
      invariant Instantiated(users, seen)
      invariant out == Collected(users[..i], seen, conv)
    {
      var u := users[i];
      if u.account.instance.Err? {
        FailsAt(users, GetInstance, i, seen);
        return Err(InstanceError(u, GetInstance));
      }
      var a := u.account.instance.value;
      CollectedTake(users, seen, i, a, conv);
      InstantiatedSnoc(users, seen, a);
      var x := conv(u.email, a);
      if x.Some? {
        out := out + [x.value];
      }
      seen := seen + [a];
      i := i + 1;
    }
    InstancesOfPrefix(users, GetInstance, i, seen);
    CollectedWhole(users, seen, conv);
    r := Ok(out);
  }
}
