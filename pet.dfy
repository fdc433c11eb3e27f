/**
 * The virtual pet of site/root/js/pet.js: a pet that hatches from an egg, grows through three
 * life stages on a timer and dies of old age, eating and needing the potty along the way.
 * `PetState` is the value of a `Pet`'s fields; `Updated`, `Fed`, `WentPotty` and `Named` say
 * what the class's operations do to it, and the lemmas say what those do over a pet's life.
 */
module VirtualPet {
  import Text

  const CurrentPetVersion: int := 1
  /** The most food a pet will eat. */
  const MaxFood: int := 100
  /** How long a pet holds out before it has to go. */
  const PottyTime: int := 100
  const FoodDecay: int := 5
  const AgingRate: int := 1
  const PottyDecay: int := 5

  const LifeStageEgg: int := 1
  const LifeStagePup: int := 2
  const LifeStageAdult: int := 3
  const LifeStageElder: int := 4
  /** How long each life stage lasts. */
  const EggTime: int := 2
  const PupTime: int := 300
  const AdultTime: int := 900
  const ElderTime: int := 300

  /** The simulated fields of a pet. */
  datatype PetState = PetState(
    canDie: bool,
    alive: bool,
    paused: bool,
    lifeStage: int,
    name: string,
    food: int,
    age: int,
    behavior: int,
    pottyTimer: int)

  /** A new pet: an unnamed, immortal egg with a full stomach. */
  const Initial: PetState := PetState(false, true, false, LifeStageEgg, "", MaxFood, 0, 0, PottyTime)

  /** A life stage the program knows. */
  predicate ValidStage(s: PetState) {
    LifeStageEgg <= s.lifeStage <= LifeStageElder
  }

  /** `update` does nothing to a dead or paused pet. */
  predicate Inactive(s: PetState) {
    !s.alive || s.paused
  }

  /** `goPotty`: whatever the pet's behaviour, the potty timer starts over. */
  function WentPotty(s: PetState): PetState {
    s.(pottyTimer := PottyTime)
  }

  /** The hunger and potty part of `update`, outside the egg stage. */
  function Decayed(s: PetState): PetState {
    var food := s.food - FoodDecay;
    var t := s.(food := if food < 0 && !s.canDie then 0 else food, pottyTimer := s.pottyTimer - PottyDecay);
    if t.pottyTimer < 0 then WentPotty(t) else t
  }

  /** The growing part of `update`: at most one stage change, checked from the egg up. */
  function Grown(s: PetState): PetState {
    if s.lifeStage == LifeStageEgg && s.age >= EggTime then s.(paused := true, lifeStage := LifeStagePup, age := 0)
    else if s.lifeStage == LifeStagePup && s.age >= PupTime then s.(paused := true, lifeStage := LifeStageAdult, age := 0)
    else if s.lifeStage == LifeStageAdult && s.age >= AdultTime then s.(paused := true, lifeStage := LifeStageElder, age := 0)
    else if s.lifeStage == LifeStageElder && s.age >= ElderTime then s.(paused := true, alive := false)
    else s
  }

  /** `update`: age the pet, let it get hungry and need the potty unless it is an egg, then let it grow. */
  function Updated(s: PetState): PetState {
    if Inactive(s) then s
    else
      var aged := s.(age := s.age + AgingRate);
      Grown(if aged.lifeStage != LifeStageEgg then Decayed(aged) else aged)
  }

  /** `feed`: a pet with more than `MaxFood` eats nothing; otherwise it eats all it is given. */
  function Fed(s: PetState, amount: int): PetState {
    if s.food > MaxFood then s else s.(food := s.food + amount)
  }

  /** Whether a name the player typed is blank by JavaScript's `trim`. */
  predicate Blank(newName: string) {
    Text.Trim(newName, Text.JsWhitespace) == []
  }

  /** The naming button: a blank name is ignored; any other names the pet and wakes it. */
  function Named(s: PetState, newName: string): PetState {
    if Blank(newName) then s else s.(name := newName, paused := false)
  }

  /** The stage an update leaves a pet in, given that the update does anything. */
  function NextStage(stage: int, age: int): int {
    if stage == LifeStageEgg && age >= EggTime then LifeStagePup
    else if stage == LifeStagePup && age >= PupTime then LifeStageAdult
    else if stage == LifeStageAdult && age >= AdultTime then LifeStageElder
    else stage
  }

  /** A dead or paused pet is left exactly as it was. */
  lemma UpdateInactive(s: PetState)
    requires Inactive(s)
    ensures Updated(s) == s
  {
  }

  /**
   * Hunger and the potty outside the egg stage: food drops by `FoodDecay`, clamped at 0 for a pet
   * that cannot die and left negative for one that can; the potty timer drops by `PottyDecay` and
   * starts over at `PottyTime` once it is below 0. An egg neither eats nor needs to go. The name
   * and behaviour never change.
   */
  lemma UpdateNeeds(s: PetState)
    requires !Inactive(s)
    ensures var r := Updated(s);
      && r.name == s.name && r.behavior == s.behavior && r.canDie == s.canDie
      && (s.lifeStage == LifeStageEgg ==> r.food == s.food && r.pottyTimer == s.pottyTimer)
      && (s.lifeStage != LifeStageEgg ==>
            && (s.canDie ==> r.food == s.food - FoodDecay)
            && (!s.canDie ==> r.food == (if s.food - FoodDecay < 0 then 0 else s.food - FoodDecay) && r.food >= 0)
            && r.pottyTimer == (if s.pottyTimer - PottyDecay < 0 then PottyTime else s.pottyTimer - PottyDecay)
            && r.pottyTimer >= 0)
  {
  }

  /**
   * Growing: the pet ages by `AgingRate`, then at most one thing happens. When the aged pet has
   * reached its stage's length, an egg, pup or adult moves up one stage, is paused and starts
   * again at age 0, and an elder is paused and dies; otherwise only the age changed.
   */
  lemma UpdateStage(s: PetState)
    requires !Inactive(s)
    ensures var r := Updated(s); var age := s.age + AgingRate;
      && r.lifeStage == NextStage(s.lifeStage, age)
      && (r.lifeStage != s.lifeStage ==> r.lifeStage == s.lifeStage + 1 && r.paused && r.age == 0 && r.alive)
      && (!r.alive <==> s.lifeStage == LifeStageElder && age >= ElderTime)
      && (!r.alive ==> r.paused && r.age == age)
      && (r.lifeStage == s.lifeStage && r.alive ==> !r.paused && r.age == age)
  {
  }

  /** `NextStage` moves a known stage up by at most one and never past the elder stage. */
  lemma NextStageBounds(stage: int, age: int)
    ensures NextStage(stage, age) == stage || NextStage(stage, age) == stage + 1
    ensures LifeStageEgg <= stage <= LifeStageElder ==> LifeStageEgg <= NextStage(stage, age) <= LifeStageElder
    ensures NextStage(stage, age) == stage + 1 <==>
      (stage == LifeStageEgg && age >= EggTime) || (stage == LifeStagePup && age >= PupTime)
        || (stage == LifeStageAdult && age >= AdultTime)
  {
  }

  /** `n` updates in a row, as the page's timer and debug button run them. */
  function Updates(s: PetState, n: nat): PetState
    decreases n
  {
    if n == 0 then s else Updates(Updated(s), n - 1)
  }

  /** A pet that is dead or waiting for its player stays as it is however often it is updated. */
  lemma {:induction false} UpdatesInactive(s: PetState, n: nat)
    requires Inactive(s)
    ensures Updates(s, n) == s
    decreases n
  {
    if n > 0 {
      UpdateInactive(s);
      UpdatesInactive(s, n - 1);
    }
  }

  /** Over any run of updates the life stage never goes down, a known stage stays known, and the dead stay dead. */
  lemma {:induction false} UpdatesMonotone(s: PetState, n: nat)
    ensures Updates(s, n).lifeStage >= s.lifeStage
    ensures ValidStage(s) ==> ValidStage(Updates(s, n))
    ensures !s.alive ==> !Updates(s, n).alive
    ensures Updates(s, n).name == s.name && Updates(s, n).canDie == s.canDie
    decreases n
  {
    if n > 0 {
      if !Inactive(s) {
        UpdateStage(s);
        NextStageBounds(s.lifeStage, s.age + AgingRate);
      }
      UpdatesMonotone(Updated(s), n - 1);
    }
  }

  /** A pet that cannot die and starts with food never runs into negative food, however often it is updated. */
  lemma {:induction false} UpdatesFeedsImmortal(s: PetState, n: nat)
    requires !s.canDie && s.food >= 0
    ensures Updates(s, n).food >= 0
    decreases n
  {
    if n > 0 {
      if !Inactive(s) {
        UpdateNeeds(s);
      }
      UpdatesFeedsImmortal(Updated(s), n - 1);
    }
  }

  /** A new pet hatches on its second update, and then waits, paused, for a name. */
  lemma Hatching()
    ensures Updates(Initial, 1).lifeStage == LifeStageEgg && Updates(Initial, 1).age == 1
    ensures var p := Updates(Initial, 2);
      p.lifeStage == LifeStagePup && p.paused && p.age == 0 && p.name == "" && p.food == MaxFood
  {
  }

  /** Feeding never takes food away when the amount is not negative, and a pet over `MaxFood` is not fed. */
  lemma FeedFood(s: PetState, amount: int)
    ensures Fed(s, amount).food == (if s.food > MaxFood then s.food else s.food + amount)
    ensures amount >= 0 ==> Fed(s, amount).food >= s.food
    ensures Fed(s, amount).(food := s.food) == s
  {
  }

  /** Naming changes the name and wakes the pet exactly when the name is not blank, and touches nothing else. */
  lemma NameEffect(s: PetState, newName: string)
    ensures Blank(newName) ==> Named(s, newName) == s
    ensures !Blank(newName) ==> Named(s, newName).name == newName && !Named(s, newName).paused
    ensures Named(s, newName).(name := s.name, paused := s.paused) == s
    ensures Blank(newName) <==> forall i :: 0 <= i < |newName| ==> Text.JsWhitespace(newName[i])
  {
  }

  /** A hatched pet waiting for its name starts growing again once it is given one. */
  lemma NamingWakes(s: PetState, newName: string)
    requires s.alive && s.paused && !Blank(newName)
    ensures !Inactive(Named(s, newName))
    ensures Updated(Named(s, newName)).age == s.age + AgingRate || Updated(Named(s, newName)).paused
  {
    UpdateStage(Named(s, newName));
  }

  /**
   * `Pet`: the simulated fields of the page's one pet. `lastUpdate`, `eggFound` and `hatched` are
   * clock readings nothing here reads.
   */
  class Pet {
    var version: int
    var canDie: bool
    var alive: bool
    var paused: bool
    var lifeStage: int
    var name: string
    var food: int
    var age: int
    var behavior: int
    var pottyTimer: int

    function State(): PetState
      reads this
    {
      PetState(canDie, alive, paused, lifeStage, name, food, age, behavior, pottyTimer)
    }

    constructor ()
      ensures State() == Initial && version == CurrentPetVersion
    {
      version := CurrentPetVersion;
      canDie := false;
      alive := true;
      paused := false;
      lifeStage := LifeStageEgg;
      name := "";
      food := MaxFood;
      age := 0;
      behavior := 0;
      pottyTimer := PottyTime;
    }

    method Update()
      modifies this
      ensures State() == Updated(old(State())) && version == old(version)
    {
      if !alive || paused {
        return;
      }
      age := age + AgingRate;
      ghost var aged := State();
      if lifeStage != LifeStageEgg {
        food := food - FoodDecay;
        pottyTimer := pottyTimer - PottyDecay;
        if food < 0 && !canDie {
          food := 0;
        }
        if pottyTimer < 0 {
          GoPotty();
        }
        assert State() == Decayed(aged);
      }
      Grow();
    }

    /** The stage-change part of `update`. */
    method Grow()
      modifies this
      ensures State() == Grown(old(State())) && version == old(version)
    {
      if lifeStage == LifeStageEgg && age >= EggTime {
        paused := true;
        lifeStage := LifeStagePup;
        age := 0;
      } else if lifeStage == LifeStagePup && age >= PupTime {
        paused := true;
        lifeStage := LifeStageAdult;
        age := 0;
      } else if lifeStage == LifeStageAdult && age >= AdultTime {
        paused := true;
        lifeStage := LifeStageElder;
        age := 0;
      } else if lifeStage == LifeStageElder && age >= ElderTime {
        paused := true;
        alive := false;
      }
    }

    method Feed(amount: int)
      modifies this
      ensures State() == Fed(old(State()), amount) && version == old(version)
    {
      if food > MaxFood {
        return;
      }
      food := food + amount;
    }

    method GoPotty()
      modifies this
      ensures State() == WentPotty(old(State())) && version == old(version)
    {
      pottyTimer := PottyTime;
    }
  }

  /** The two assignments of the naming handler: the new name, and the pet no longer paused. */
  method SetName(pet: Pet, newName: string)
    modifies pet
    ensures pet.State() == old(pet.State()).(name := newName, paused := false) && pet.version == old(pet.version)
  {
    pet.name := newName;
    pet.paused := false;
  }

  /** The naming button's click handler, on the page's pet and the name in the text box. */
  method NameIt(pet: Pet, newName: string)
    modifies pet
    ensures pet.State() == Named(old(pet.State()), newName) && pet.version == old(pet.version)
  {
    var blank := Blank(newName);
    if blank {
      return;
    }
    SetName(pet, newName);
  }
}
