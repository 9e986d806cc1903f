/**
  `DianpingCrawlerPipeline`: every item a spider emits is created in the collection named after
  the spider, insert-only, so the first item with a given `_id` is the one that stays stored.
 */
module Pipelines {
  import opened Wrappers
  import opened Values
  import opened Store

  /** The collection an item of the named spider goes to. */
  datatype Target = FoodCollection | UserCollection

  /** Routing by spider name: `food` and `user` have a collection, any other spider has none. */
  function Route(spiderName: string): (t: Option<Target>)
    ensures t == Some(FoodCollection) <==> spiderName == "food"
    ensures t == Some(UserCollection) <==> spiderName == "user"
    ensures t.None? <==> spiderName != "food" && spiderName != "user"
  {
    if spiderName == "food" then Some(FoodCollection)
    else if spiderName == "user" then Some(UserCollection)
    else None
  }

  class Pipeline {
    /** `db['food']` and `db['user']`. */
    const food: MongoCollection
    const user: MongoCollection

    ghost predicate Valid()
      reads this, food, user
    {
      food != user && food.Valid() && user.Valid()
    }

    constructor (food: MongoCollection, user: MongoCollection)
      requires food != user && food.Valid() && user.Valid()
      ensures this.food == food && this.user == user && Valid()
    {
      this.food := food;
      this.user := user;
    }

    /**
      `process_item`: one insert attempt into the routed collection, none for another spider;
      the item is passed on unless the spider has no collection, when the result is None.
     */
    method ProcessItem(item: Fields, spiderName: string) returns (r: Option<Fields>)
      requires Valid()
      modifies food, user
      ensures Valid()
      ensures r == if Route(spiderName).Some? then Some(item) else None
      ensures Route(spiderName) == Some(FoodCollection) ==>
        food.contents == Insert(old(food.contents), item).0 && user.contents == old(user.contents)
      ensures Route(spiderName) == Some(UserCollection) ==>
        user.contents == Insert(old(user.contents), item).0 && food.contents == old(food.contents)
      ensures Route(spiderName).None? ==>
        food.contents == old(food.contents) && user.contents == old(user.contents)
    {
      if spiderName == "food" {
        var x := ProcessFoodItem(item);
        return Some(x);
      }
      if spiderName == "user" {
        var x := ProcessUserItem(item);
        return Some(x);
      }
      return None;
    }

    /** `process_food_item`: insert into `food`; a refused duplicate is reported and the item returned all the same. */
    method ProcessFoodItem(item: Fields) returns (r: Fields)
      requires Valid()
      modifies food
      ensures Valid()
      ensures r == item
      ensures food.contents == Insert(old(food.contents), item).0
      ensures forall k :: k in old(food.contents).docs ==> food.contents.docs[k] == old(food.contents).docs[k]
    {
      var _ := food.InsertOne(item);
      return item;
    }

    /** `process_user_item`: the same for `user`. */
    method ProcessUserItem(item: Fields) returns (r: Fields)
      requires Valid()
      modifies user
      ensures Valid()
      ensures r == item
      ensures user.contents == Insert(old(user.contents), item).0
      ensures forall k :: k in old(user.contents).docs ==> user.contents.docs[k] == old(user.contents).docs[k]
    {
      var _ := user.InsertOne(item);
      return item;
    }
  }
}
