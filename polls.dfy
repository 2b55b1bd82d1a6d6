/**
 * Prediction-market polls: the list of markets and the Create Poll
 * dialog, which charges free users 10 Bhai Points per poll.
 */
module Polls {
  import opened Wrappers
  import opened Text
  import opened PointsStore

  datatype Market = Market(
    id: string,
    question: string,
    category: string,
    resolveDate: string,
    yesPrice: real,
    noPrice: real,
    change24h: real,
    volume24h: real)

  datatype Form = Form(question: string, category: string, resolveDate: string)

  /** The signed-in user; `role` is missing for some accounts. */
  datatype User = User(role: Option<seq<string>>)

  const CostCreatePoll: real := 10.0

  const EmptyForm := Form("", "Indices", "")

  const SeedMarkets: seq<Market> := [
    Market("nifty-25k", "Will Nifty cross 25,000 by Dec 31, 2024?", "Indices", "2024-12-31", 0.65, 0.35, 0.04, 15432.0),
    Market("sector-q1", "Tech will outperform in Q1 2025?", "Sectors", "2025-03-31", 0.42, 0.58, -0.02, 8021.0)]

  /** Free users are the signed-out ones and those whose roles include `user`. */
  predicate IsFreeUser(user: Option<User>) {
    user.None? || (user.value.role.Some? && "user" in user.value.role.value)
  }

  /** A paying user can always create; a free one needs the cost in points. */
  predicate CanCreate(user: Option<User>, points: real) {
    !IsFreeUser(user) || points >= CostCreatePoll
  }

  /** The Create button is enabled for a permitted user, outside a submission, with a non-blank question. */
  predicate CreateEnabled(user: Option<User>, points: real, creating: bool, question: string) {
    CanCreate(user, points) && !creating && Trim(question) != ""
  }

  /** A user with no role is not free, whatever the balance. */
  lemma RolelessUserPays(points: real)
    ensures !IsFreeUser(Some(User(None))) && CanCreate(Some(User(None)), points)
  {
  }

  /** Enabled means permitted and a question with something other than white space. */
  lemma EnabledMeansQuestion(user: Option<User>, points: real, creating: bool, question: string)
    requires CreateEnabled(user, points, creating, question)
    ensures !IsBlank(question) && !creating
    ensures IsFreeUser(user) ==> points >= CostCreatePoll
  {
  }

  /** The market a form creates: an even 50/50 book with no history. */
  function NewMarket(form: Form, stamp: string, today: string): (m: Market)
    ensures m.yesPrice == 0.5 && m.noPrice == 0.5 && m.change24h == 0.0 && m.volume24h == 0.0
    ensures m.question == Trim(form.question) && m.category == form.category
    ensures m.resolveDate == if form.resolveDate == "" then today else form.resolveDate
  {
    Market("poll-" + stamp, Trim(form.question), form.category,
           if form.resolveDate != "" then form.resolveDate else today, 0.5, 0.5, 0.0, 0.0)
  }

  class PollsPage {
    var markets: seq<Market>
    var createOpen: bool
    var creating: bool
    var form: Form
    const store: Store

    constructor(store: Store)
      ensures this.store == store
      ensures markets == SeedMarkets && !createOpen && !creating && form == EmptyForm
    {
      this.store := store;
      markets := SeedMarkets;
      createOpen := false;
      creating := false;
      form := EmptyForm;
    }

    /**
     * `onSubmitCreate`: a free user pays first and a refused payment
     * changes nothing else; otherwise the new market goes on top, the
     * dialog closes and the form is cleared. `stamp` stands for
     * `Date.now()`, `today` for the current date.
     */
    method OnSubmitCreate(user: Option<User>, stamp: string, today: string)
      modifies this, store
      requires store.Restorable()
      ensures store.Restorable() && !creating
      ensures IsFreeUser(user) && old(store.points) < CostCreatePoll ==>
        markets == old(markets) && createOpen == old(createOpen) && form == old(form)
        && store.points == old(store.points) && store.cookie == old(store.cookie)
      ensures !(IsFreeUser(user) && old(store.points) < CostCreatePoll) ==>
        markets == [NewMarket(old(form), stamp, today)] + old(markets) && !createOpen && form == EmptyForm
      ensures IsFreeUser(user) && old(store.points) >= CostCreatePoll ==>
        store.points == old(store.points) - CostCreatePoll
      ensures !IsFreeUser(user) ==> store.points == old(store.points) && store.cookie == old(store.cookie)
    {
      creating := true;
      if IsFreeUser(user) {
        var ok := store.Spend(CostCreatePoll);
        if !ok {
          creating := false;
          return;
        }
      }
      Publish(stamp, today);
    }

    /** Put the form's market on top, close the dialog and clear the form. */
    method Publish(stamp: string, today: string)
      modifies this
      ensures markets == [NewMarket(old(form), stamp, today)] + old(markets)
      ensures !createOpen && form == EmptyForm && !creating
    {
      markets := [NewMarket(form, stamp, today)] + markets;
      createOpen := false;
      form := EmptyForm;
      creating := false;
    }
  }

  /** A signed-out visitor with 15 points creates one poll, then is refused a second. */
  method TwoPollsOnFifteenPoints() returns (first: nat, second: nat, left: real)
    ensures first == 3 && second == 3 && left == 5.0
  {
    var store := new Store(Raw("15", Some(15.0)));
    var page := new PollsPage(store);
    page.form := Form("  Will gold rise?  ", "Commodities", "");
    page.OnSubmitCreate(None, "1", "2025-01-01");
    first := |page.markets|;
    page.form := Form("Again?", "Indices", "");
    page.OnSubmitCreate(None, "2", "2025-01-01");
    second := |page.markets|;
    left := store.points;
  }
}
