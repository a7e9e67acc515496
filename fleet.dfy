/**
 * The fleet page (Fleet/index.tsx): a list of robots the user adds through a
 * modal form and deletes by id.
 */
module Fleet {
  import opened Sequences

  /** One robot of the fleet; `id` comes from the add form. */
  datatype Robot = Robot(id: string, name: string, path: string, loadAvailable: string)

  /** The robots whose id differs from `id`, in their original order. */
  function WithoutId(robots: seq<Robot>, id: string): (r: seq<Robot>)
    ensures forall x :: x in r <==> x in robots && x.id != id
    ensures forall x :: multiset(r)[x] == if x.id == id then 0 else multiset(robots)[x]
  {
    Filter(robots, (robot: Robot) => robot.id != id)
  }

  /** Deleting keeps the remaining robots in their original order. */
  lemma WithoutIdKeepsOrder(robots: seq<Robot>, id: string)
    ensures Subsequence(WithoutId(robots, id), robots)
  {
    FilterSubsequence(robots, (robot: Robot) => robot.id != id);
  }

  /** Deleting an id that no robot carries leaves the list as it was. */
  lemma WithoutAbsentId(robots: seq<Robot>, id: string)
    requires forall x :: x in robots ==> x.id != id
    ensures WithoutId(robots, id) == robots
  {
    FilterKeepsAll(robots, (robot: Robot) => robot.id != id);
  }

  /** Deleting the same id twice is the same as deleting it once. */
  lemma WithoutIdIdempotent(robots: seq<Robot>, id: string)
    ensures WithoutId(WithoutId(robots, id), id) == WithoutId(robots, id)
  {
    FilterIdempotent(robots, (robot: Robot) => robot.id != id);
  }

  class FleetPage {
    var isModalOpen: bool
    var robots: seq<Robot>

    /** The page opens with the modal closed and no robots. */
    constructor ()
      ensures !isModalOpen && robots == []
    {
      isModalOpen := false;
      robots := [];
    }

    /** The "+ Add New Robot In Fleet" button. */
    method OpenModal()
      modifies this
      ensures isModalOpen && robots == old(robots)
    {
      isModalOpen := true;
    }

    /** The modal's close button. */
    method CloseModal()
      modifies this
      ensures !isModalOpen && robots == old(robots)
    {
      isModalOpen := false;
    }

    /** Submitting the add form: the robot goes to the end of the list and the modal closes. */
    method HandleAddRobot(robot: Robot)
      modifies this
      ensures robots == old(robots) + [robot]
      ensures !isModalOpen
    {
      robots := robots + [robot];
      isModalOpen := false;
    }

    /** A robot's "Delete" button: every robot with that id goes, the others stay in order. */
    method HandleDeleteRobot(id: string)
      modifies this
      ensures robots == WithoutId(old(robots), id)
      ensures forall x :: x in robots <==> x in old(robots) && x.id != id
      ensures isModalOpen == old(isModalOpen)
    {
      robots := WithoutId(robots, id);
    }
  }
}
