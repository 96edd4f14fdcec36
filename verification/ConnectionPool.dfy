/** The pool of database handles, `internal/db/pool.go`.

    The pool's own account of what it has opened is kept in two ghost sets; `Valid` says
    that what is open is what is in the map, no more and no less.  A handle and a tunnel
    can be closed only while they are open, so that the proof that every method is allowed
    its calls is the proof that nothing is closed twice. */
module ConnectionPool {
  import opened Text

  datatype PoolKey = PoolKey(user: int, conn: int)

  /** `sshFingerprint` and `IsZero` look at these. */
  datatype SSH = SSH(user: string, host: string, port: string, given: bool)

  datatype DSNInput = DSNInput(parts: seq<string>, network: string)

  /** What the pool needs of a dialect: its engine's name and its DSN builder. */
  datatype Dialect = Dialect(engine: string, buildDSN: DSNInput -> string)

  function Fingerprint(ssh: SSH): string {
    if !ssh.given then "" else "\0ssh=" + ssh.user + "@" + ssh.host + ":" + ssh.port
  }

  function CacheKey(d: Dialect, input: DSNInput, ssh: SSH): string {
    d.engine + "\0" + d.buildDSN(input) + Fingerprint(ssh)
  }

  /** A text that ends in `sep` and text without it is read in only one way. */
  lemma LastSeparator(x: string, y: string, u: string, v: string, sep: char)
    requires sep !in y && sep !in v && x + [sep] + y == u + [sep] + v
    ensures x == u && y == v
  {
    var s, t := x + [sep] + y, u + [sep] + v;
    assert s[|x|] == sep && t[|u|] == sep;
    assert forall i :: |x| < i < |s| ==> s[i] == y[i - |x| - 1];
    assert forall i :: |u| < i < |t| ==> t[i] == v[i - |u| - 1];
    assert |x| == |u|;
    assert s[..|x|] == x && t[..|u|] == u && s[|x| + 1..] == y && t[|u| + 1..] == v;
  }

  /** And one that begins with text without `sep` likewise. */
  lemma FirstSeparator(x: string, y: string, u: string, v: string, sep: char)
    requires sep !in x && sep !in u && x + [sep] + y == u + [sep] + v
    ensures x == u && y == v
  {
    var s, t := x + [sep] + y, u + [sep] + v;
    assert s[|x|] == sep && t[|u|] == sep;
    assert forall i :: 0 <= i < |x| ==> s[i] == x[i];
    assert forall i :: 0 <= i < |u| ==> t[i] == u[i];
    assert |x| == |u|;
    assert s[..|x|] == x && t[..|u|] == u && s[|x| + 1..] == y && t[|u| + 1..] == v;
  }

  /** Two tunnels have one fingerprint exactly when they are one tunnel (a port is a number, so
      there is no colon in it), or when there is none in either. */
  lemma FingerprintTells(a: SSH, b: SSH)
    requires ':' !in a.port && ':' !in b.port && '@' !in a.host && '@' !in b.host
    ensures Fingerprint(a) == Fingerprint(b) <==>
              || (!a.given && !b.given)
              || (a.given && b.given && a.user == b.user && a.host == b.host && a.port == b.port)
  {
    var s, t := a.user + "@" + a.host + ":" + a.port, b.user + "@" + b.host + ":" + b.port;
    var head := "\0ssh=";
    assert a.given ==> Fingerprint(a) == head + s;
    assert b.given ==> Fingerprint(b) == head + t;
    if a.given && b.given && Fingerprint(a) == Fingerprint(b) {
      assert (head + s)[|head|..] == s && (head + t)[|head|..] == t;
      LastSeparator(a.user + "@" + a.host, a.port, b.user + "@" + b.host, b.port, ':');
      LastSeparator(a.user, a.host, b.user, b.host, '@');
    }
  }

  /** Two that have one fingerprint and are not one tunnel. */
  lemma FingerprintsCollide()
    ensures var a, b := SSH("a@b", "c", "22", true), SSH("a", "b@c", "22", true);
            a != b && Fingerprint(a) == Fingerprint(b)
  {
    assert "a@b"[1] == '@' && |"a@b"| != |"a"|;
    assert "\0ssh=" + "a@b" + "@" + "c" + ":" + "22" == "\0ssh=" + "a" + "@" + "b@c" + ":" + "22";
  }

  /** Where neither engine nor DSN has a NUL in it, a handle is used again exactly for the same
      engine, the same DSN and the same fingerprint. */
  lemma KeyTells(d: Dialect, input: DSNInput, ssh: SSH, e: Dialect, other: DSNInput, ssh': SSH)
    requires '\0' !in d.engine && '\0' !in e.engine && '\0' !in d.buildDSN(input) && '\0' !in e.buildDSN(other)
    ensures CacheKey(d, input, ssh) == CacheKey(e, other, ssh') <==>
              && d.engine == e.engine && d.buildDSN(input) == e.buildDSN(other)
              && Fingerprint(ssh) == Fingerprint(ssh')
  {
    var a, b := d.buildDSN(input), e.buildDSN(other);
    FingerprintStarts(ssh);
    FingerprintStarts(ssh');
    if CacheKey(d, input, ssh) == CacheKey(e, other, ssh') {
      var s, t := a + Fingerprint(ssh), b + Fingerprint(ssh');
      assert CacheKey(d, input, ssh) == d.engine + ['\0'] + s && CacheKey(e, other, ssh') == e.engine + ['\0'] + t;
      FirstSeparator(d.engine, s, e.engine, t, '\0');
      BeforeMark(a, Fingerprint(ssh), b, Fingerprint(ssh'), '\0');
    }
  }

  lemma FingerprintStarts(ssh: SSH)
    ensures Fingerprint(ssh) == "" || Fingerprint(ssh)[0] == '\0'
  {
  }

  lemma BeforeMark(x: string, y: string, u: string, v: string, mark: char)
    requires mark !in x && mark !in u && (y == "" || y[0] == mark) && (v == "" || v[0] == mark) && x + y == u + v
    ensures x == u && y == v
  {
    var s, t := x + y, u + v;
    assert y != "" ==> s[|x|] == mark;
    assert v != "" ==> t[|u|] == mark;
    assert forall i :: 0 <= i < |x| ==> s[i] == x[i];
    assert forall i :: 0 <= i < |u| ==> t[i] == u[i];
    assert |x| == |u|;
    assert s[..|x|] == x && t[..|u|] == u && s[|x|..] == y && t[|u|..] == v;
  }

  /** `sql.DB`, opened under a cache key, for a slot of the pool. */
  class Handle {
    const key: string
    const dsn: string
    ghost const slot: PoolKey
    var open: bool

    constructor (key: string, dsn: string, ghost slot: PoolKey)
      ensures this.key == key && this.dsn == dsn && this.slot == slot && open
    {
      this.key, this.dsn, this.slot, open := key, dsn, slot, true;
    }

    method Close()
      requires open
      modifies this
      ensures !open
    {
      open := false;
    }
  }

  /** The closer of an SSH tunnel. */
  class Tunnel {
    const network: string
    ghost const slot: PoolKey
    var live: bool

    constructor (network: string, ghost slot: PoolKey)
      ensures this.network == network && this.slot == slot && live
    {
      this.network, this.slot, live := network, slot, true;
    }

    method Close()
      requires live
      modifies this
      ensures !live
    {
      live := false;
    }
  }

  datatype Entry = Entry(db: Handle, cacheKey: string, tunnel: Option<Tunnel>, lastUsed: int)

  datatype Result = Ok(db: Handle) | SSHError | OpenError

  class Pool {
    const idleTimeout: int
    var m: map<PoolKey, Entry>
    ghost var handles: set<Handle>
    ghost var tunnels: set<Tunnel>

    ghost predicate EntriesOpen()
      reads this, handles, tunnels
    {
      forall k :: k in m ==>
        && m[k].db in handles && m[k].db.open && m[k].db.key == m[k].cacheKey && m[k].db.slot == k
        && (m[k].tunnel.Some? ==> m[k].tunnel.value in tunnels && m[k].tunnel.value.live && m[k].tunnel.value.slot == k)
    }

    /** The handles and tunnels that are opened and not closed are those in the map. */
    ghost predicate NothingElseOpen()
      reads this, handles, tunnels
    {
      && (forall h :: h in handles && h.open ==> h.slot in m && m[h.slot].db == h)
      && (forall t :: t in tunnels && t.live ==> t.slot in m && m[t.slot].tunnel == Some(t))
    }

    ghost predicate Valid()
      reads this, handles, tunnels
    {
      EntriesOpen() && NothingElseOpen()
    }

    constructor (idleTimeout: int)
      ensures Valid() && m == map[] && handles == {} && tunnels == {} && this.idleTimeout == idleTimeout
    {
      this.idleTimeout := idleTimeout;
      m, handles, tunnels := map[], {}, {};
    }

    /** Closes an entry's handle and tunnel and takes it out of the map. */
    method Drop(key: PoolKey)
      requires Valid() && key in m
      modifies this`m, m[key].db, if m[key].tunnel.Some? then {m[key].tunnel.value} else {}
      ensures Valid() && m == old(m) - {key}
      ensures !old(m)[key].db.open && (old(m)[key].tunnel.Some? ==> !old(m)[key].tunnel.value.live)
    {
      var entry := m[key];
      entry.db.Close();
      if entry.tunnel.Some? {
        entry.tunnel.value.Close();
      }
      m := m - {key};
    }

    /** `openFails` and `sshFails` are the outcomes of `cfg.Open` and `RegisterSSHDialer`,
        `network` the name under which the dialer is registered. */
    method Get(key: PoolKey, d: Dialect, input: DSNInput, ssh: SSH, now: int, network: string, openFails: bool,
               sshFails: bool)
      returns (r: Result)
      requires Valid()
      modifies this, handles, tunnels
      ensures Valid() && fresh(handles - old(handles)) && fresh(tunnels - old(tunnels))
      ensures old(handles) <= handles && old(tunnels) <= tunnels
      // a handle that is returned was opened under the cache key asked for
      ensures r.Ok? ==> r.db.open && r.db.key == CacheKey(d, input, ssh)
      ensures r.Ok? ==> key in m && m[key].db == r.db && m[key].lastUsed == now && m == old(m)[key := m[key]]
      // one that fits is used again; one that does not is closed first
      ensures key in old(m) && old(m)[key].cacheKey == CacheKey(d, input, ssh) ==>
                r == Ok(old(m)[key].db) && handles == old(handles) && tunnels == old(tunnels)
      ensures key in old(m) && old(m)[key].cacheKey != CacheKey(d, input, ssh) ==> !old(m)[key].db.open
      ensures key !in old(m) || old(m)[key].cacheKey != CacheKey(d, input, ssh) ==>
                match r
                case SSHError => ssh.given && sshFails && m == old(m) - {key} && handles == old(handles)
                case OpenError =>
                  && !(ssh.given && sshFails) && openFails && m == old(m) - {key} && handles == old(handles)
                case Ok(db) =>
                  && !(ssh.given && sshFails) && !openFails && fresh(db) && (m[key].tunnel.Some? <==> ssh.given)
                  && db.dsn == d.buildDSN(if ssh.given then input.(network := network) else input)
      // other keys keep their handles
      ensures forall k :: k in old(m) && k != key ==> k in m && m[k] == old(m)[k]
    {
      hide CacheKey;
      var cacheKey := CacheKey(d, input, ssh);
      if key in m && m[key].cacheKey == cacheKey {
        var entry := m[key];
        m := m[key := entry.(lastUsed := now)];
        return Ok(entry.db);
      }
      r := Replace(key, cacheKey, d, input, ssh, now, network, openFails, sshFails);
    }

    /** `Get` for a key without an entry that fits: one that does not is closed first. */
    method Replace(key: PoolKey, cacheKey: string, d: Dialect, input: DSNInput, ssh: SSH, now: int, network: string,
                   openFails: bool, sshFails: bool)
      returns (r: Result)
      requires Valid()
      modifies this, handles, tunnels
      ensures Valid() && fresh(handles - old(handles)) && fresh(tunnels - old(tunnels))
      ensures old(handles) <= handles && old(tunnels) <= tunnels
      ensures key in old(m) ==> !old(m)[key].db.open
      ensures match r
              case SSHError => ssh.given && sshFails && m == old(m) - {key} && handles == old(handles)
              case OpenError => !(ssh.given && sshFails) && openFails && m == old(m) - {key} && handles == old(handles)
              case Ok(db) => !(ssh.given && sshFails) && !openFails && fresh(db) && db.open && db.key == cacheKey
                             && key in m && m == old(m)[key := m[key]] && m[key].db == db && m[key].lastUsed == now
                             && (m[key].tunnel.Some? <==> ssh.given)
                             && db.dsn == d.buildDSN(if ssh.given then input.(network := network) else input)
    {
      hide EntriesOpen, NothingElseOpen;
      Evict(key);
      r := Open(key, cacheKey, d, input, ssh, now, network, openFails, sshFails);
    }

    /** The second half of `Get`, for a key without an entry. */
    method Open(key: PoolKey, cacheKey: string, d: Dialect, input: DSNInput, ssh: SSH, now: int, network: string,
                openFails: bool, sshFails: bool)
      returns (r: Result)
      requires Valid() && key !in m
      modifies this
      ensures Valid() && fresh(handles - old(handles)) && fresh(tunnels - old(tunnels))
      ensures old(handles) <= handles && old(tunnels) <= tunnels
      ensures match r
              case SSHError => ssh.given && sshFails && m == old(m) && handles == old(handles)
              case OpenError => !(ssh.given && sshFails) && openFails && m == old(m) && handles == old(handles)
              case Ok(db) => !(ssh.given && sshFails) && !openFails && fresh(db) && db.open && db.key == cacheKey
                             && key in m && m == old(m)[key := m[key]] && m[key].db == db && m[key].lastUsed == now
                                 && m[key].cacheKey == cacheKey
                             && (m[key].tunnel.Some? <==> ssh.given)
                             && db.dsn == d.buildDSN(if ssh.given then input.(network := network) else input)
    {
      if !ssh.given {
        r := Connect(key, cacheKey, d.buildDSN(input), None, now, openFails);
        return;
      }
      if sshFails {
        return SSHError;
      }
      var t := new Tunnel(network, key);
      r := Connect(key, cacheKey, d.buildDSN(input.(network := network)), Some(t), now, openFails);
    }

    /** Opens a handle, through the tunnel if there is one; if that fails the tunnel is
        closed again. */
    method Connect(key: PoolKey, cacheKey: string, dsn: string, tunnel: Option<Tunnel>, now: int, openFails: bool)
      returns (r: Result)
      requires Valid() && key !in m
      requires tunnel.Some? ==> tunnel.value.live && tunnel.value.slot == key && tunnel.value !in tunnels
      modifies this, if tunnel.Some? then {tunnel.value} else {}
      ensures Valid() && fresh(handles - old(handles)) && old(handles) <= handles
      ensures tunnels == old(tunnels) + if tunnel.Some? then {tunnel.value} else {}
      ensures if openFails then r == OpenError && m == old(m) && handles == old(handles)
              else r.Ok? && fresh(r.db) && r.db.open && r.db.key == cacheKey && r.db.dsn == dsn
                   && m == old(m)[key := Entry(r.db, cacheKey, tunnel, now)]
    {
      if tunnel.Some? {
        tunnels := tunnels + {tunnel.value};
      }
      if openFails {
        if tunnel.Some? {
          tunnel.value.Close();
        }
        return OpenError;
      }
      var db := new Handle(cacheKey, dsn, key);
      handles := handles + {db};
      m := m[key := Entry(db, cacheKey, tunnel, now)];
      return Ok(db);
    }

    method Evict(key: PoolKey)
      requires Valid()
      modifies this`m, handles, tunnels
      ensures Valid() && m == old(m) - {key}
      ensures key in old(m) ==> !old(m)[key].db.open
    {
      if key in m {
        Drop(key);
      }
    }

    /** The loop of `EvictUser` and of `Sweep`: takes out exactly the entries whose keys are
        in `chosen`; the map is gone through in any order. */
    method DropAll(chosen: set<PoolKey>)
      requires Valid() && chosen <= m.Keys
      modifies this`m, handles, tunnels
      ensures Valid() && m == old(m) - chosen
      ensures forall k :: k in chosen ==> !old(m)[k].db.open
    {
      var todo := chosen;
      while todo != {}
        invariant Valid() && todo <= chosen
        invariant m == old(m) - (chosen - todo)
        invariant forall k :: k in chosen - todo ==> !old(m)[k].db.open
        decreases todo
      {
        var k :| k in todo;
        Drop(k);
        todo := todo - {k};
      }
    }

    method EvictUser(user: int)
      requires Valid()
      modifies this`m, handles, tunnels
      ensures Valid()
      ensures m == map k | k in old(m) && k.user != user :: old(m)[k]
      ensures forall k :: k in old(m) && k.user == user ==> !old(m)[k].db.open
    {
      DropAll(set k | k in m && k.user == user);
    }

    /** Exactly the entries that have been idle for the timeout go; none, if there is none. */
    method Sweep(now: int)
      requires Valid()
      modifies this`m, handles, tunnels
      ensures Valid()
      ensures idleTimeout == 0 ==> m == old(m)
      ensures idleTimeout != 0 ==> m == map k | k in old(m) && now - old(m)[k].lastUsed < idleTimeout :: old(m)[k]
      ensures forall k :: k in old(m) && k !in m ==> !old(m)[k].db.open
    {
      if idleTimeout == 0 {
        return;
      }
      DropAll(set k | k in m && now - m[k].lastUsed >= idleTimeout);
    }

    /** What the account comes to: the open handles are as many as the entries of the map. */
    lemma OpenHandles()
      requires Valid()
      ensures (set h | h in handles && h.open) == (set k | k in m :: m[k].db)
      ensures |set h | h in handles && h.open| == |m|
    {
      assert (set h | h in handles && h.open) == (set k | k in m :: m[k].db);
      CountEntries(m.Keys);
      assert (set k | k in m :: m[k].db) == set k | k in m.Keys :: m[k].db;
    }

    lemma {:induction false} CountEntries(keys: set<PoolKey>)
      requires EntriesOpen() && keys <= m.Keys
      ensures |set k | k in keys :: m[k].db| == |keys|
    {
      if keys != {} {
        var k :| k in keys;
        CountEntries(keys - {k});
        assert (set l | l in keys :: m[l].db) == (set l | l in keys - {k} :: m[l].db) + {m[k].db};
        assert m[k].db !in (set l | l in keys - {k} :: m[l].db);
      }
    }
  }
}
