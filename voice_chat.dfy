/**
 * Voice chat channels: each channel name maps to the set of users in it,
 * and a channel is dropped as soon as its last user leaves.
 */
module VoiceChat {

  /** No channel is stored empty. */
  predicate NoEmptyChannel(channels: map<string, set<string>>)
  {
    forall c :: c in channels ==> channels[c] != {}
  }

  /** The channels after `join(user, channel)`. */
  function Joined(channels: map<string, set<string>>, user: string, channel: string): (r: map<string, set<string>>)
    ensures channel in r && user in r[channel]
    ensures r[channel] == (if channel in channels then channels[channel] else {}) + {user}
    ensures forall c :: c != channel ==> (c in r <==> c in channels) && (c in r ==> r[c] == channels[c])
    ensures NoEmptyChannel(channels) ==> NoEmptyChannel(r)
  {
    channels[channel := (if channel in channels then channels[channel] else {}) + {user}]
  }

  /** The channels after `leave(user, channel)`. */
  function Left(channels: map<string, set<string>>, user: string, channel: string): (r: map<string, set<string>>)
    ensures channel !in channels ==> r == channels
    ensures channel in r ==> user !in r[channel] && r[channel] == channels[channel] - {user}
    ensures channel in channels ==> (channel in r <==> channels[channel] - {user} != {})
    ensures forall c :: c != channel ==> (c in r <==> c in channels) && (c in r ==> r[c] == channels[c])
    ensures NoEmptyChannel(channels) ==> NoEmptyChannel(r)
  {
    if channel in channels then
      var rest := channels[channel] - {user};
      if rest == {} then channels - {channel} else channels[channel := rest]
    else channels
  }

  /** A user who joins and then leaves leaves no trace. */
  lemma JoinThenLeave(channels: map<string, set<string>>, user: string, channel: string)
    requires NoEmptyChannel(channels)
    requires channel in channels ==> user !in channels[channel]
    ensures Left(Joined(channels, user, channel), user, channel) == channels
  {
    var r := Left(Joined(channels, user, channel), user, channel);
    if channel in channels {
      assert Joined(channels, user, channel)[channel] - {user} == channels[channel];
    }
    assert forall c :: c in r <==> c in channels;
  }

  class VoiceChatManager {
    var channels: map<string, set<string>>

    constructor ()
      ensures channels == map[]
    {
      channels := map[];
    }

    method Join(user: string, channel: string)
      modifies this
      ensures channels == Joined(old(channels), user, channel)
    {
      var members := if channel in channels then channels[channel] else {};
      channels := channels[channel := members + {user}];
    }

    method Leave(user: string, channel: string)
      modifies this
      ensures channels == Left(old(channels), user, channel)
    {
      if channel in channels {
        channels := channels[channel := channels[channel] - {user}];
        if channels[channel] == {} {
          channels := channels - {channel};
        }
      }
    }
  }

  /** a joins c1, then leaves it: c1 is gone. */
  method VoiceScenario()
  {
    var voice := new VoiceChatManager();
    voice.Join("a", "c1");
    assert "a" in voice.channels["c1"];
    voice.Leave("a", "c1");
    assert "c1" !in voice.channels;
  }
}
