/**
 * The collaborators the services are wired to: the wallet store (Mongo
 * `yanki_wallets`, keyed here by phone), the look-aside wallet cache (Redis
 * `wallet:<phone>`), the transaction store (`yanki_transactions`, append-only),
 * the outbound event channel (Kafka, as an append-only log) and the source of
 * fresh ids (UUIDs and store-assigned wallet ids).
 */
module Infrastructure {
  import opened Wrappers
  import opened YankiWalletModel
  import opened Records

  /** Guards for the invariant's quantifiers, so that they fire only where a proof names them. */
  predicate Stored(store: map<Phone, Wallet>, p: Phone) { p in store }
  predicate Cached(cache: map<Phone, Wallet>, p: Phone) { p in cache }

  /**
   * What every committed state of the store and cache satisfies: each wallet is
   * stored under its own phone with an id already drawn; phone numbers, document
   * numbers and ids are unique; a cached snapshot belongs to a stored wallet and
   * agrees with it on every profile field (its balance and card may be stale).
   */
  ghost predicate StoreInvariant(store: map<Phone, Wallet>, cache: map<Phone, Wallet>, nextId: nat) {
    && (forall p {:trigger Stored(store, p)} ::
          Stored(store, p) ==> store[p].phoneNumber == p && store[p].id < nextId)
    && (forall p, q {:trigger Stored(store, p), Stored(store, q)} ::
          Stored(store, p) && Stored(store, q) && store[p].documentNumber == store[q].documentNumber
          ==> p == q)
    && (forall p, q {:trigger Stored(store, p), Stored(store, q)} ::
          Stored(store, p) && Stored(store, q) && store[p].id == store[q].id ==> p == q)
    && (forall p {:trigger Cached(cache, p)} ::
          Cached(cache, p) ==> p in store && SameProfile(cache[p], store[p]))
  }

  /** What the invariant says about one phone. */
  lemma InvariantAt(store: map<Phone, Wallet>, cache: map<Phone, Wallet>, n: nat, p: Phone)
    requires StoreInvariant(store, cache, n)
    ensures p in store ==> store[p].phoneNumber == p && store[p].id < n
    ensures p in cache ==> p in store && SameProfile(cache[p], store[p])
  {
    assert Stored(store, p) <==> p in store;
    assert Cached(cache, p) <==> p in cache;
  }

  /** Drawing more ids keeps the invariant. */
  lemma MoreIdsKeepInvariant(store: map<Phone, Wallet>, cache: map<Phone, Wallet>, n: nat, m: nat)
    requires StoreInvariant(store, cache, n) && n <= m
    ensures StoreInvariant(store, cache, m)
  {
  }

  /** Some stored wallet already carries this document number. */
  predicate DocumentTaken(store: map<Phone, Wallet>, documentNumber: string) {
    exists p :: p in store && store[p].documentNumber == documentNumber
  }

  /** Every cached snapshot is exactly the stored wallet. */
  ghost predicate CacheCoherent(store: map<Phone, Wallet>, cache: map<Phone, Wallet>) {
    forall p :: p in cache ==> p in store && cache[p] == store[p]
  }

  /** Saving a mutated copy of a stored wallet keeps the invariant. */
  lemma SaveStoredKeepsInvariant(store: map<Phone, Wallet>, cache: map<Phone, Wallet>, n: nat, w: Wallet)
    requires StoreInvariant(store, cache, n)
    requires w.phoneNumber in store && SameProfile(w, store[w.phoneNumber])
    ensures StoreInvariant(store[w.phoneNumber := w], cache, n)
  {
    var s := store[w.phoneNumber := w];
    forall p | Stored(s, p) ensures s[p].phoneNumber == p && s[p].id < n {
      assert Stored(store, p);
    }
    forall p, q | Stored(s, p) && Stored(s, q) && s[p].documentNumber == s[q].documentNumber
      ensures p == q
    {
      assert Stored(store, p) && Stored(store, q);
    }
    forall p, q | Stored(s, p) && Stored(s, q) && s[p].id == s[q].id ensures p == q {
      assert Stored(store, p) && Stored(store, q);
    }
    forall p | Cached(cache, p) ensures p in s && SameProfile(cache[p], s[p]) {
      assert Cached(cache, p);
    }
  }

  /** Inserting a wallet with a new phone, a new document and the next id keeps the invariant. */
  lemma InsertKeepsInvariant(store: map<Phone, Wallet>, cache: map<Phone, Wallet>, n: nat, w: Wallet)
    requires StoreInvariant(store, cache, n)
    requires w.phoneNumber !in store && !DocumentTaken(store, w.documentNumber) && w.id == n
    ensures StoreInvariant(store[w.phoneNumber := w], cache[w.phoneNumber := w], n + 1)
  {
    var s, c := store[w.phoneNumber := w], cache[w.phoneNumber := w];
    forall p | Stored(s, p) ensures s[p].phoneNumber == p && s[p].id < n + 1 {
      if p != w.phoneNumber { assert Stored(store, p); }
    }
    forall p, q | Stored(s, p) && Stored(s, q) && s[p].documentNumber == s[q].documentNumber
      ensures p == q
    {
      if p != w.phoneNumber && q != w.phoneNumber {
        assert Stored(store, p) && Stored(store, q);
      }
    }
    forall p, q | Stored(s, p) && Stored(s, q) && s[p].id == s[q].id ensures p == q {
      if p != w.phoneNumber && q != w.phoneNumber {
        assert Stored(store, p) && Stored(store, q);
      } else if p != w.phoneNumber {
        assert Stored(store, p);
      } else if q != w.phoneNumber {
        assert Stored(store, q);
      }
    }
    forall p | Cached(c, p) ensures p in s && SameProfile(c[p], s[p]) {
      if p != w.phoneNumber { assert Cached(cache, p); }
    }
  }

  /** Caching a snapshot with the stored wallet's profile keeps the invariant. */
  lemma CacheKeepsInvariant(store: map<Phone, Wallet>, cache: map<Phone, Wallet>, n: nat, p: Phone, w: Wallet)
    requires StoreInvariant(store, cache, n)
    requires p in store && SameProfile(w, store[p])
    ensures StoreInvariant(store, cache[p := w], n)
  {
    var c := cache[p := w];
    forall q | Cached(c, q) ensures q in store && SameProfile(c[q], store[q]) {
      if q != p { assert Cached(cache, q); }
    }
  }

  /** Evicting a cache entry keeps the invariant. */
  lemma EvictKeepsInvariant(store: map<Phone, Wallet>, cache: map<Phone, Wallet>, n: nat, p: Phone)
    requires StoreInvariant(store, cache, n)
    ensures StoreInvariant(store, cache - {p}, n)
  {
    var c := cache - {p};
    forall q | Cached(c, q) ensures q in store && SameProfile(c[q], store[q]) {
      assert Cached(cache, q);
    }
  }

  /** A snapshot of everything the backend holds. */
  datatype Env = Env(
    store: map<Phone, Wallet>,
    cache: map<Phone, Wallet>,
    transactions: seq<YankiTransaction>,
    events: seq<Event>,
    nextId: nat)

  class Backend {
    var store: map<Phone, Wallet>
    var cache: map<Phone, Wallet>
    var transactions: seq<YankiTransaction>
    var events: seq<Event>
    var nextId: nat

    function State(): Env
      reads this
    {
      Env(store, cache, transactions, events, nextId)
    }

    ghost predicate Valid()
      reads this
    {
      StoreInvariant(store, cache, nextId)
    }

    constructor ()
      ensures Valid()
      ensures store == map[] && cache == map[] && transactions == [] && events == [] && nextId == 0
    {
      store, cache, transactions, events, nextId := map[], map[], [], [], 0;
    }

    /** `UUID.randomUUID()`, or the id the store assigns to a new wallet. */
    method FreshId() returns (id: Id)
      modifies this`nextId
      ensures id == old(nextId) && nextId == old(nextId) + 1
    {
      id := nextId;
      nextId := nextId + 1;
    }

    /** `walletRepository.findByPhoneNumber`: the stored wallet, or nothing. */
    method FindStored(phone: Phone) returns (r: Option<Wallet>)
      ensures r.Some? <==> phone in store
      ensures r.Some? ==> r.value == store[phone]
    {
      if phone in store {
        r := Some(store[phone]);
      } else {
        r := None;
      }
    }

    /** `walletRepository.save`: an upsert. */
    method SaveWallet(w: Wallet)
      modifies this`store
      ensures store == old(store)[w.phoneNumber := w]
    {
      store := store[w.phoneNumber := w];
    }

    /** `cacheService.cacheWallet`. */
    method CacheWallet(phone: Phone, w: Wallet)
      modifies this`cache
      ensures cache == old(cache)[phone := w]
    {
      cache := cache[phone := w];
    }

    /** `cacheService.evictWalletCache`. */
    method EvictWalletCache(phone: Phone)
      modifies this`cache
      ensures cache == old(cache) - {phone}
    {
      cache := cache - {phone};
    }

    /** `yankiTransactionRepository.save` of a new record. */
    method SaveTransaction(t: YankiTransaction)
      modifies this`transactions
      ensures transactions == old(transactions) + [t]
    {
      transactions := transactions + [t];
    }

    /** Any `eventProducer.send...` call. */
    method Publish(e: Event)
      modifies this`events
      ensures events == old(events) + [e]
    {
      events := events + [e];
    }
  }
}
