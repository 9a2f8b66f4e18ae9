/** The browser state the pages share: `localStorage` and the route the
    Next.js router was last asked to show. */
module Browser {
  import opened Entities

  /** The storage key of the signed-in admin. */
  const SessionKey := "wecare_admin"

  const LoginRoute := "/"
  const DashboardRoute := "/dashboard"

  /** What `JSON.stringify(admin)` leaves in storage: the admin record, or
      the text `undefined` when the login reply carried no admin. */
  datatype Stored = StoredAdmin(admin: AdminRecord) | StoredUndefined

  class Window {
    /** `localStorage`, key by key. */
    var storage: map<string, Stored>
    /** The last route passed to `router.push`. */
    var location: string

    constructor(storage0: map<string, Stored>, location0: string)
      ensures storage == storage0 && location == location0
    {
      storage := storage0;
      location := location0;
    }

    /** `router.push(route)`. */
    method Push(route: string)
      modifies this`location
      ensures location == route
    {
      location := route;
    }

    /** `localStorage.setItem(key, value)`. */
    method SetItem(key: string, value: Stored)
      modifies this`storage
      ensures storage == old(storage)[key := value]
    {
      storage := storage[key := value];
    }

    /** `localStorage.removeItem(key)`. */
    method RemoveItem(key: string)
      modifies this`storage
      ensures storage == old(storage) - {key}
    {
      storage := storage - {key};
    }
  }
}
