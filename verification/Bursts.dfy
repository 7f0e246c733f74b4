/** What a burst of new alerts comes to in Slack. */
module Bursts {
  import opened Prelude
  import opened Members
  import opened Batching
  import opened Channels
  import opened Message
  import opened Slack
  import opened Flush

  /** The call posts to the channel, for an alert that was never sent. */
  predicate IsNewPost(s: Send, ch: string) {
    s.op.Post? && s.channel == ch && exists m | m in s.members :: m.notifiedTargets == []
  }

  function NewPosts(sends: seq<Send>, ch: string): nat {
    if sends == [] then 0 else NewPosts(Init(sends), ch) + if IsNewPost(Last(sends), ch) then 1 else 0
  }

  lemma {:induction false} NewPostsConcat(a: seq<Send>, b: seq<Send>, ch: string)
    ensures NewPosts(a + b, ch) == NewPosts(a, ch) + NewPosts(b, ch)
    decreases |b|
  {
    if b == [] {
      assert a + b == a;
    } else {
      assert Init(a + b) == a + Init(b) && Last(a + b) == Last(b);
      NewPostsConcat(a, Init(b), ch);
    }
  }

  lemma {:induction false} NoNewPosts(sends: seq<Send>, ch: string)
    requires forall s | s in sends :: !IsNewPost(s, ch)
    ensures NewPosts(sends, ch) == 0
  {
    if sends != [] {
      assert Last(sends) in sends;
      forall s | s in Init(sends) ensures s in sends { }
      NoNewPosts(Init(sends), ch);
    }
  }

  /** One call per channel, so one post at most. */
  lemma {:induction false} OnePostPerBucket(script: Script, style: GroupStyle, b: Bucket, channels: seq<string>, n: nat, ch: string)
    requires NoDup(channels)
    ensures NewPosts(Calls(script, style, b, channels, n), ch) <= 1
    decreases |channels|
  {
    var sends := Calls(script, style, b, channels, n);
    if channels == [] {
      assert sends == [];
    } else {
      assert Init(sends) == Calls(script, style, b, Init(channels), n);
      assert Last(sends) == SendFor(script, style, b, Last(channels), n + |channels| - 1);
      if Last(channels) == ch {
        forall s | s in Init(sends) ensures !IsNewPost(s, ch) {
          var k :| 0 <= k < |Init(sends)| && Init(sends)[k] == s;
          assert s.channel == channels[k] && channels[k] != channels[|channels| - 1];
        }
        NoNewPosts(Init(sends), ch);
      } else {
        NoDupInit(channels);
        OnePostPerBucket(script, style, b, Init(channels), n, ch);
      }
    }
  }

  lemma SentBucketPostsNothingNew(script: Script, style: GroupStyle, members: Members, b: Bucket, channels: seq<string>, n: nat, ch: string)
    requires SentBucket(members, b)
    ensures NewPosts(Calls(script, style, b, channels, n), ch) == 0
  {
    var sends := Calls(script, style, b, channels, n);
    forall m | m in b.members ensures m.notifiedTargets != [] {
      assert m.fingerprint in Fps(b.members);
      assert m.fingerprint in KeyClass(members, TargetKey(b.targets));
    }
    forall s | s in sends ensures !IsNewPost(s, ch) {
      assert s.members == b.members;
    }
    NoNewPosts(sends, ch);
  }

  lemma BucketPosts(script: Script, style: GroupStyle, channels: seq<string>, members: Members, threshold: int,
                    b: Bucket, p: Progress, ch: string) returns (made: seq<Send>)
    requires NoDup(channels) && Legal(members, threshold, [b])
    ensures AfterBucket(script, style, channels, b, p).log == p.log + made
    ensures NewPosts(made, ch) <= if b.targets == [] then 1 else 0
  {
    assert b in [b];
    made := if BucketChanged(b) then Calls(script, style, b, channels, |p.log|) else [];
    if b.targets == [] {
      OnePostPerBucket(script, style, b, channels, |p.log|, ch);
    } else {
      SentBucketPostsNothingNew(script, style, members, b, channels, |p.log|, ch);
    }
  }

  ghost predicate Legal(members: Members, threshold: int, bs: seq<Bucket>) {
    forall b | b in bs :: SentBucket(members, b) || FreshBucket(members, threshold, b)
  }

  lemma LegalInit(members: Members, threshold: int, bs: seq<Bucket>)
    requires bs != [] && Legal(members, threshold, bs)
    ensures Legal(members, threshold, Init(bs)) && Legal(members, threshold, [Last(bs)])
  {
    assert Last(bs) in bs;
    forall b | b in Init(bs) ensures b in bs { }
  }

  lemma {:induction false} PostsAreBuckets(script: Script, style: GroupStyle, channels: seq<string>, members: Members, threshold: int,
                                           bs: seq<Bucket>, p: Progress, ch: string) returns (made: seq<Send>)
    requires NoDup(channels) && Legal(members, threshold, bs)
    ensures AfterBuckets(script, style, channels, bs, p).log == p.log + made && NewPosts(made, ch) <= FreshCount(bs)
    decreases |bs|
  {
    if bs == [] {
      made := [];
    } else {
      LegalInit(members, threshold, bs);
      var before := PostsAreBuckets(script, style, channels, members, threshold, Init(bs), p, ch);
      var mid := AfterBuckets(script, style, channels, Init(bs), p);
      var sends := BucketPosts(script, style, channels, members, threshold, Last(bs), mid, ch);
      NewPostsConcat(before, sends, ch);
      LogsConcat(p.log, before, sends);
      made := before + sends;
    }
  }

  /** However many alerts of a group were never sent, a flush posts at most
      `threshold` messages for them to a channel, or one. */
  lemma BurstIsBounded(script: Script, style: GroupStyle, channel: string, members: Members, threshold: int,
                       bs: seq<Bucket>, p: Progress, ch: string)
    requires IsBucketing(members, threshold, bs)
    ensures var log := AfterBuckets(script, style, ChannelList(channel), bs, p).log;
      p.log <= log && NewPosts(log[|p.log|..], ch) <= if threshold > 1 then threshold else 1
  {
    ChannelListFacts(channel);
    var made := PostsAreBuckets(script, style, ChannelList(channel), members, threshold, bs, p, ch);
    FewFreshMessages(members, threshold, bs);
    assert (p.log + made)[|p.log|..] == made;
  }
}
