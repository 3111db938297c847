/**
 * The page's React components as objects whose handlers update their state
 * in place, each proved to do what the matching function of VisitFlow says.
 * The device's storage and network are shared objects.
 */
module Components {
  import opened Wrappers
  import opened Backend
  import opened Storage
  import F = VisitFlow

  /** The page's tri-valued state flag. */
  datatype PageState = Loading | Register | Success

  /**
   * `VisitPage` together with the `RegistrationForm` it renders: the page's
   * `pageState` and `visitResult`, and the form's `error` and `isLoading`.
   * A remount is a new object.
   */
  class VisitPage {
    const storage: LocalStorage
    const net: Network
    var pageState: PageState
    var visitResult: Option<VisitResult>
    var error: string
    var isLoading: bool

    /** A success screen always has a result to show. */
    ghost predicate Valid()
      reads this
    {
      pageState == Success ==> visitResult.Some?
    }

    /** The state flag and the result, read as one tagged value. */
    ghost function Page(): F.Page
      reads this
      requires Valid()
    {
      match pageState
      case Loading => F.Loading
      case Register => F.Register
      case Success => F.Success(visitResult.value)
    }

    ghost function Model(): F.State
      reads this, storage, net
      requires Valid()
    {
      F.State(storage.items, Page(), error, isLoading, net.sent)
    }

    constructor (storage: LocalStorage, net: Network)
      ensures this.storage == storage && this.net == net
      ensures Valid() && Model() == F.Mount(storage.items, net.sent)
    {
      this.storage := storage;
      this.net := net;
      pageState := Loading;
      visitResult := None;
      error := "";
      isLoading := false;
    }

    /** The mount effect; `answer` is the service's answer if a visit is requested. */
    method ProcessVisit(answer: Response<VisitResult>)
      requires Valid()
      modifies this, storage, net
      ensures Valid() && Model() == F.ProcessVisit(old(Model()), answer)
    {
      var storedPhone := storage.GetItem(CustomerPhoneKey);
      var tagId := ScanTag;
      if !Truthy(storedPhone) {
        pageState := Register;
        return;
      }
      var response := net.Fetch(VisitRequest(storedPhone.value, tagId), answer);
      if response.Ok? {
        visitResult := Some(response.body);
        pageState := Success;
      } else {
        storage.RemoveItem(CustomerPhoneKey);
        pageState := Register;
      }
    }

    /** The callback the form calls once both onboarding steps succeeded. */
    method HandleRegistrationSuccess(result: VisitResult)
      requires Valid()
      modifies this, storage
      ensures Valid() && Model() == F.HandleRegistrationSuccess(old(Model()), result)
    {
      storage.SetItem(CustomerPhoneKey, result.customer.phoneNumber);
      visitResult := Some(result);
      pageState := Success;
    }

    /** The form's submit handler; `register` and `visit` are the service's answers if asked. */
    method HandleSubmit(input: F.FormInput, register: Response<RegisterResult>, visit: Response<VisitResult>)
      requires Valid()
      modifies this, storage, net
      ensures Valid() && Model() == F.HandleSubmit(old(Model()), input, register, visit)
    {
      error := "";
      if !input.agreed {
        return;
      }
      isLoading := true;
      var response := net.Fetch(RegisterRequest(input.name, input.phone, input.email), register);
      if !response.Ok? {
        error := FailureMessage(response, UnknownError);
      } else {
        var visitResponse := net.Fetch(VisitRequest(response.body.phoneNumber, ScanTag), visit);
        if !visitResponse.Ok? {
          error := FailureMessage(visitResponse, FirstVisitError);
        } else {
          HandleRegistrationSuccess(visitResponse.body);
        }
      }
      isLoading := false;
    }

    method Render() returns (v: F.View)
      requires Valid()
      ensures v == F.Render(Model())
    {
      if pageState == Loading {
        return F.Spinner;
      }
      if pageState == Success {
        return F.Welcome(visitResult.value.customer.name, visitResult.value.totalVisits);
      }
      return F.Form(error, isLoading);
    }
  }

  /** The simulation shell: the reset button and the key that remounts the page. */
  class App {
    const storage: LocalStorage
    const net: Network
    var page: VisitPage

    ghost predicate Valid()
      reads this, page
    {
      page.storage == storage && page.net == net && page.Valid()
    }

    constructor (storage: LocalStorage, net: Network)
      ensures this.storage == storage && this.net == net
      ensures Valid() && fresh(page) && page.Model() == F.Mount(storage.items, net.sent)
    {
      this.storage := storage;
      this.net := net;
      page := new VisitPage(storage, net);
    }

    method ResetSimulation()
      requires Valid()
      modifies this, storage
      ensures Valid() && fresh(page)
      ensures page.Model() == F.ResetSimulation(old(page.Model()))
    {
      storage.RemoveItem(CustomerPhoneKey);
      page := new VisitPage(storage, net);
    }
  }

  /**
   * A device that remembers "010-1111-2222" scans and the service answers
   * with Kim's fifth visit: the welcome screen shows "Kim" and 5. After a
   * reset, the next scan shows an empty registration form whatever the
   * service would have answered.
   */
  method ScanScenario(otherAnswer: Response<VisitResult>) returns (first: F.View, second: F.View)
    ensures first == F.Welcome("Kim", 5)
    ensures second == F.Form("", false)
  {
    var storage := new LocalStorage(map[CustomerPhoneKey := "010-1111-2222"]);
    var net := new Network();
    var app := new App(storage, net);
    app.page.ProcessVisit(Ok(VisitResult(Customer("Kim", "010-1111-2222"), 5)));
    first := app.page.Render();
    app.ResetSimulation();
    app.page.ProcessVisit(otherAnswer);
    second := app.page.Render();
  }
}
