/**
  The frame cache of internal/frame/producer.go. The renderer is any function of the frame, with a
  fixed location and fixed providers; it may fail.
 */
module Producer {
  import opened Wrappers
  import opened Quota
  import opened Layout
  import opened ViewModel
  import R = Refresh

  type Payload = seq<int>

  datatype Cached = Cached(key: Key, payload: Payload)

  class FrameProducer {
    const text: Text
    const providers: seq<Provider>
    const render: Frame -> Option<Payload>
    var cache: Option<Cached>
    /** Some snapshot whose frame the cached payload shows. */
    ghost var origin: Snapshot

    /** What rendering this snapshot afresh gives. */
    function Fresh(s: Snapshot): Option<Payload> { render(BuildFrame(text, providers, s)) }

    ghost predicate Valid()
      reads this
    {
      cache.Some? ==> cache.value.key == ContentKey(origin) && Fresh(origin) == Some(cache.value.payload)
    }

    constructor (text: Text, providers: seq<Provider>, render: Frame -> Option<Payload>)
      ensures Valid() && cache == None
      ensures this.text == text && this.providers == providers && this.render == render
    {
      this.text, this.providers, this.render := text, providers, render;
      cache := None;
    }

    /** Cached or not, the payload is what a fresh render would give; only a render fills the cache. */
    method Produce(s: Snapshot) returns (payload: Option<Payload>)
      requires Valid()
      modifies this
      ensures Valid()
      ensures payload == Fresh(s)
      ensures old(cache).Some? && old(cache).value.key == ContentKey(s) ==> payload.Some? && cache == old(cache)
      ensures cache == if payload.Some? then Some(Cached(ContentKey(s), payload.value)) else old(cache)
    {
      hide BuildFrame, NormalAccounts, NormalUsage;
      var accounts := CopyNormalised(s.accounts, false);
      var key := Key(s.updatedAt, Content(s.stale, accounts[..], NormalUsage(s.usage), s.errors));
      if cache.Some? && cache.value.key == key {
        EqualKeysLookEqual(text, providers, origin, s);
        return Some(cache.value.payload);
      }
      var frame := BuildFrameData(text, providers, s);
      payload := render(frame);
      if payload.Some? {
        cache := Some(Cached(key, payload.value));
        origin := s;
      }
    }
  }

  /** Renaming an account, or noting when it was last fresh, never causes a render. */
  lemma RenamingHitsTheCache(s: Snapshot, i: nat, name: string, lastFresh: Option<Instant>)
    requires i < |s.accounts|
    ensures ContentKey(s.(accounts := s.accounts[i := s.accounts[i].(name := name, lastFresh := lastFresh)])) ==
            ContentKey(s)
  {
    var t := s.(accounts := s.accounts[i := s.accounts[i].(name := name, lastFresh := lastFresh)]);
    assert NormalAccounts(t.accounts, false) == NormalAccounts(s.accounts, false);
  }

  /** From the service to the image: a refresh that changes no fingerprint changes no rendered payload. */
  lemma UnchangedRefreshIsTheSameImage(producer: FrameProducer, events: seq<R.Event>, e: R.Event, interval: Instant)
    requires R.AfterAll(events, interval).hasData
    requires Fingerprint(R.AfterAll(events, interval).snapshot) ==
             Fingerprint(R.AfterAll(events + [e], interval).snapshot)
    ensures producer.Fresh(R.AfterAll(events, interval).snapshot) ==
            producer.Fresh(R.AfterAll(events + [e], interval).snapshot)
  {
    hide BuildFrame, R.AfterAll, Fingerprint;
    R.UnchangedFingerprintUnchangedFrame(events, e, interval, producer.text, producer.providers);
  }
}
