// ServiceFacade: the base of every managed service.  It holds the service's
// name and up flag and calls the implementation's `onStart`/`onStop` hooks,
// which are foreign here and are recorded in a log instead.
module ServiceFacade {

  datatype Hook = OnStart | OnStop

  class Facade {
    const name: string
    var up: bool
    var hooks: seq<Hook>

    /** A new service is down and has run no hook. */
    constructor (name: string)
      ensures this.name == name && !up && hooks == []
    {
      this.name := name;
      up := false;
      hooks := [];
    }

    function IsUp(): (r: bool)
      reads this
      ensures r == up
    {
      up
    }

    /** `isdown` is the negation of `isup`. */
    function IsDown(): (r: bool)
      reads this
      ensures r == !IsUp()
    {
      !up
    }

    function GetName(): (r: string)
      ensures r == name
    {
      name
    }

    /** `stop` runs the hook whatever the current state, then is down. */
    method Stop()
      modifies this
      ensures !up && hooks == old(hooks) + [OnStop]
    {
      hooks := hooks + [OnStop];
      up := false;
    }

    /** `start` runs the hook whatever the current state, then is up. */
    method Start()
      modifies this
      ensures up && hooks == old(hooks) + [OnStart]
    {
      hooks := hooks + [OnStart];
      up := true;
    }

    /** `restart` is a stop followed by a start: it always ends up. */
    method Restart()
      modifies this
      ensures up && hooks == old(hooks) + [OnStop, OnStart]
    {
      Stop();
      Start();
    }
  }
}
