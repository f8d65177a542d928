/**
 * The activity's two nullable references, the notification-listener
 * service singleton and the method channel, and the rules by which it
 * connects them, starts and stops listening, and schedules retries.
 *
 * The singleton lookup `NotificationListener.getInstance()` and every read
 * of the enabled-listeners setting are inputs of the methods; the calls the
 * activity makes on the listener, and the delayed retries it posts, are
 * recorded in a ghost log of effects.
 */
module ListenerConnection {
  import opened Wrappers
  import SettingsIntents

  /** A handle on the running notification-listener service. */
  datatype Listener = Listener(id: nat)

  /** A method channel, known by its name. */
  datatype Channel = Channel(name: string)

  /** The name of the channel the activity creates. */
  const ChannelName: string := "com.kai.budgie/notification_listener"

  /** What the activity does that is visible outside it. */
  datatype Effect =
    | SetMethodChannel(listener: Listener, channel: Channel)
    | StartListening(listener: Listener)
    | StopListening(listener: Listener)
    | ConnectRetryScheduled
      // postDelayed of connectToNotificationListener
    | StartRetryScheduled
      // postDelayed of the retry inside startNotificationListener
    | SettingsShown(attempt: SettingsIntents.Attempt)
      // a run of the requestNotificationAccess fallback chain

  /** True when the log hands the channel to a listener. */
  predicate SetsChannel(effects: seq<Effect>)
  {
    exists e :: e in effects && e.SetMethodChannel?
  }

  /**
   * The effects of `connectToNotificationListener` once the lookup returned
   * `instance`: hand over the channel, and start listening when the setting
   * says the service is enabled; with a channel but no listener, schedule a
   * retry; with no channel, nothing.
   */
  function ConnectEffects(instance: Option<Listener>, channel: Option<Channel>, enabled: bool): seq<Effect>
  {
    if instance.Some? && channel.Some? then
      [SetMethodChannel(instance.value, channel.value)] + (if enabled then [StartListening(instance.value)] else [])
    else if channel.Some? then [ConnectRetryScheduled]
    else []
  }

  /** The channel is handed over only when both references are present. */
  lemma ConnectSetsChannelIff(instance: Option<Listener>, channel: Option<Channel>, enabled: bool)
    ensures SetsChannel(ConnectEffects(instance, channel, enabled)) <==> instance.Some? && channel.Some?
  {
    if instance.Some? && channel.Some? {
      assert ConnectEffects(instance, channel, enabled)[0].SetMethodChannel?;
    }
  }

  /** A retry is scheduled only when the channel is present and the listener is absent. */
  lemma ConnectRetryIff(instance: Option<Listener>, channel: Option<Channel>, enabled: bool)
    ensures ConnectRetryScheduled in ConnectEffects(instance, channel, enabled) <==> channel.Some? && instance.None?
  {
  }

  /** Listening is started on connection only for a present pair and an enabled setting. */
  lemma ConnectStartsIff(instance: Option<Listener>, channel: Option<Channel>, enabled: bool, l: Listener)
    ensures StartListening(l) in ConnectEffects(instance, channel, enabled) <==>
      instance == Some(l) && channel.Some? && enabled
  {
  }

  class Activity {
    var listener: Option<Listener>
    var channel: Option<Channel>
    ghost var effects: seq<Effect>

    /** The channel, when present, is the activity's own, and it is the only one ever handed to a listener. */
    ghost predicate Valid()
      reads this
    {
      && (channel.Some? ==> channel.value == Channel(ChannelName))
      && forall e :: e in effects && e.SetMethodChannel? ==> e.channel == Channel(ChannelName)
    }

    /** A fresh activity holds neither reference. */
    constructor ()
      ensures Valid()
      ensures listener == None && channel == None && effects == []
    {
      listener := None;
      channel := None;
      effects := [];
    }

    /** `configureFlutterEngine`: create the channel (its handler is the dispatch table), then connect. */
    method ConfigureFlutterEngine(instance: Option<Listener>, enabled: bool)
      requires Valid()
      modifies this
      ensures Valid()
      ensures channel == Some(Channel(ChannelName)) && listener == instance
      ensures effects == old(effects) + ConnectEffects(instance, channel, enabled)
    {
      channel := Some(Channel(ChannelName));
      ConnectToNotificationListener(instance, enabled);
    }

    /**
     * `connectToNotificationListener`: always replace the listener by the
     * lookup's result, then apply the connection rule. `enabled` is the
     * setting's answer, read only when both references are present.
     */
    method ConnectToNotificationListener(instance: Option<Listener>, enabled: bool)
      requires Valid()
      modifies this
      ensures Valid()
      ensures listener == instance && channel == old(channel)
      ensures effects == old(effects) + ConnectEffects(instance, channel, enabled)
    {
      listener := instance;
      if listener.Some? && channel.Some? {
        effects := effects + [SetMethodChannel(listener.value, channel.value)];
        if enabled {
          effects := effects + [StartListening(listener.value)];
        }
      } else if channel.Some? {
        effects := effects + [ConnectRetryScheduled];
      }
    }

    /**
     * `ensureNotificationListenerConnection`: look the listener up only when
     * none is held (a present one is never replaced), then hand over the
     * channel when both references are present.
     */
    method EnsureNotificationListenerConnection(instance: Option<Listener>)
      requires Valid()
      modifies this
      ensures Valid()
      ensures old(listener).Some? ==> listener == old(listener)
      ensures old(listener).None? ==> listener == instance
      ensures channel == old(channel)
      ensures effects == old(effects) +
        (if listener.Some? && channel.Some? then [SetMethodChannel(listener.value, channel.value)] else [])
    {
      if listener.None? {
        listener := instance;
      }
      if listener.Some? && channel.Some? {
        effects := effects + [SetMethodChannel(listener.value, channel.value)];
      }
    }

    /**
     * `startNotificationListener`: connect; with a listener, start it and, if
     * the setting now says the service is disabled, run the access-request
     * chain; without one, schedule a delayed retry.
     */
    method StartNotificationListener(
      instance: Option<Listener>, enabledOnConnect: bool, enabledAfterStart: bool,
      pkg: string, launches: SettingsIntents.Screen -> bool)
      requires Valid()
      modifies this
      ensures Valid()
      ensures listener == instance && channel == old(channel)
      ensures listener.None? ==>
        effects == old(effects) + ConnectEffects(instance, channel, enabledOnConnect) + [StartRetryScheduled]
      ensures listener.Some? ==>
        effects == old(effects) + ConnectEffects(instance, channel, enabledOnConnect) + [StartListening(listener.value)]
          + (if enabledAfterStart then []
             else [SettingsShown(SettingsIntents.TryChain(SettingsIntents.RequestAccessChain(pkg), launches))])
    {
      ConnectToNotificationListener(instance, enabledOnConnect);
      if listener.Some? {
        effects := effects + [StartListening(listener.value)];
        if !enabledAfterStart {
          var shown, attempted := SettingsIntents.RequestNotificationAccess(pkg, launches);
          effects := effects + [SettingsShown(SettingsIntents.Attempt(shown, attempted))];
        }
      } else {
        effects := effects + [StartRetryScheduled];
      }
    }

    /** The delayed retry posted by `startNotificationListener`, when it runs. */
    method RunStartRetry(instance: Option<Listener>)
      requires Valid()
      modifies this
      ensures Valid()
      ensures listener == instance && channel == old(channel)
      ensures effects == old(effects) +
        (if listener.Some? && channel.Some?
         then [SetMethodChannel(listener.value, channel.value), StartListening(listener.value)]
         else [])
    {
      listener := instance;
      if listener.Some? && channel.Some? {
        effects := effects + [SetMethodChannel(listener.value, channel.value), StartListening(listener.value)];
      }
    }

    /** `stopNotificationListener`: stop a present listener; with none, change nothing. */
    method StopNotificationListener()
      requires Valid()
      modifies this
      ensures Valid()
      ensures listener == old(listener) && channel == old(channel)
      ensures old(listener).None? ==> effects == old(effects)
      ensures old(listener).Some? ==> effects == old(effects) + [StopListening(listener.value)]
    {
      if listener.Some? {
        effects := effects + [StopListening(listener.value)];
      }
    }
  }
}
