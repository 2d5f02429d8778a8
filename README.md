# Design-pattern exercises, modelled in Dafny

A model of the design-pattern exercises of the Design-Patterns repository,
which solve the same small problems in Python, Java and TypeScript: a
tic-tac-toe game, a parking-lot facade with a gate state machine,
observers, services and a vehicle factory, a pizza shop with builder,
factory, pricing and order-status observers, a traffic light, observer
registries, bank accounts with savings and checking rules, pizza price
tables and orders, enchanted-tool decorators, shipping strategies, pizza
and meal builders, and attraction, shape and pizza factories.

Each source file that keeps state becomes a module with `class`es whose
fields the methods update, with `modifies` clauses and postconditions that
state the whole new state. The value-level rules (prices, withdrawal rules,
shipping formulas, decorator stacks, factory lookups) are functions, and
lemmas state what the source promises about them: conservation of money
by transfers, order-independence of decorator stats, round trips of the
factories, periods of the state machines, and exactly-once delivery of
notifications. Where the Python, Java and TypeScript versions of one
exercise differ, each version is modelled on its own and a lemma relates
them (for example the Java account's withdrawal written as a negative
deposit, the Java pizza order copying the caller's list while the Python
one shares it, and the Java attraction factory lower-casing its argument).

Shared modules: `Wrappers` (option, result and the exceptions the sources
raise), `Text` (ASCII lower-casing and decimal text), `Lists` (removal of
the first equal element, one-or-many arguments) and `Registry` (observer
identities and the trace of delivered notifications). Money is kept in
integer cents where the source uses fixed price tables, and as `real`
where it multiplies or takes caller-supplied amounts.

## Model

| member | source | states |
|---|---|---|
| TicTacToe.EmptyGrid | main.py:26-28 | the grid is `size` rows of `size` cells |
| TicTacToe.EmptyGridUnoccupied | main.py:26-28 | a new grid has no occupied cell |
| TicTacToe.Board.constructor | main.py:23-28 | a new board is size×size with every cell EMPTY and none occupied |
| TicTacToe.Board.PlacePiece | main.py:38-43 | returns true iff the target cell was EMPTY; then exactly that cell now holds the piece and the occupied count rises by one; otherwise the grid is unchanged; no other cell ever changes |
| TicTacToe.PlaceRaisesOccupied | main.py:38-43 | filling an EMPTY cell with a piece raises the number of occupied cells by exactly one |
| TicTacToe.RowCountSet | main.py:38-40 | within one row, filling an EMPTY cell raises that row's occupied count by one |
| TicTacToe.Board.RowAll | main.py:47-49 | the loop answers whether every cell of row r is the piece |
| TicTacToe.Board.ColumnAll | main.py:52-54 | the loop answers whether every cell of column c is the piece |
| TicTacToe.Board.DiagonalAll | main.py:57-63 | the loop answers whether the main diagonal (or the anti-diagonal `[i][size-i-1]`) is all the piece |
| TicTacToe.Board.CheckWin | main.py:45-65 | true iff `HasLine`: some row, some column, the main diagonal or the anti-diagonal consists entirely of the piece |
| TicTacToe.Board.IsFull | main.py:67-68 | true iff the number of occupied cells is size·size, i.e. `Full`: no cell is EMPTY |
| TicTacToe.RowCountFull | main.py:67-68 | a row's occupied count equals its length iff none of its cells is EMPTY |
| TicTacToe.OccupiedBound | main.py:67-68 | the occupied count never exceeds the number of cells, and equals it iff the grid is full |
| TicTacToe.FullIffAllOccupied | main.py:67-68 | a square board is full iff all n·n cells are occupied |
| TicTacToe.Game.constructor | main.py:72-75 | a new game has a fresh empty 3×3 board, the two players in order, and player 1 to move |
| TicTacToe.Game.SwitchPlayer | main.py:77-78 | the current index becomes 1 − index, so it always changes and stays in {0, 1} |
| TicTacToe.Game.CurrentPlayer | main.py:80-81 | the current player is one of the two players |
| TicTacToe.Game.Turn | main.py:86-103 | one iteration of `play`: an occupied cell rejects the move and changes nothing; otherwise the current player's piece is placed, the turn is won iff that piece now has a line, drawn iff not won and the board is full, and only a continuing turn switches the player |
| TicTacToe.Split | main.py:109 | splitting always yields at least one part, and a string without the separator is its own only part |
| TicTacToe.SplitPair | main.py:109 | "a,b" with comma-free a and b splits into exactly [a, b] |
| TicTacToe.StripUntouched | main.py:109 | a string that neither starts nor ends with Python whitespace (ASCII tab to carriage return, the separators 0x1C–0x1F and space, plus the Unicode spaces `str.strip` removes, such as U+00A0, U+2000–U+200A and U+3000) is left unchanged by strip |
| TicTacToe.ParseShowInt | main.py:110 | `int` of an integer's decimal text gives the integer back |
| TicTacToe.ParseMove | main.py:109-114 | an accepted move always lies within the board |
| TicTacToe.ParseMoveRoundTrip | main.py:109-114 | "r,c" is accepted iff 1 ≤ r, c ≤ size, and then yields the zero-based pair (r−1, c−1); otherwise it is out of bounds |
| TicTacToe.StripLeft | main.py:109 | everything removed from the front is Python whitespace, the rest is a suffix of the input, and it is empty or starts with a non-whitespace character |
| TicTacToe.StripRight | main.py:109 | everything removed from the end is Python whitespace, the rest is a prefix of the input, and it is empty or ends with a non-whitespace character |
| TicTacToe.Strip | main.py:109 | the stripped text is no longer than the input and neither starts nor ends with Python whitespace |
| TicTacToe.GroupValueOfDigits | main.py:110 | a run of ASCII digits with no underscore is worth its plain decimal value |
| TicTacToe.GroupValueSkipsUnderscore | main.py:110 | an underscore adds nothing to a digit group's value: the group with it and the group without it are worth the same |
| TicTacToe.ParseIntGroup | main.py:110 | `int` of text that strips to an unsigned digit group, underscores included, is the group's value |
| TicTacToe.ParseIntRejectsBlank | main.py:110 | `int` (`ParseInt`) of empty or all-whitespace text raises ValueError |
| TicTacToe.ParseDigitRun | main.py:110 | `int` of a run of ASCII digits, optionally after a minus sign, is its decimal value, negated after the minus |
| TicTacToe.BadUnderscores | main.py:110 | for any digits a and b, `int` raises ValueError on a doubled underscore ("a__b") and on a leading one ("_a") |
| TicTacToe.StripNoBreakSpace | main.py:109 | strip removes a trailing no-break space (U+00A0) from text whose ends are not whitespace, as Python does |
| TicTacToe.ParseMoveParts | main.py:109-110 | when the stripped input is two comma-free parts around one comma, the move is read from `int` of each part |
| TicTacToe.Cell | main.py:110-114 | an accepted pair of coordinates always lies within the board |
| TicTacToe.GroupsMove | main.py:109-114 | two digit groups around a comma, underscores included, are read as their values, so "0_1,2" is the same move as "1,2" |
| TicTacToe.NoBreakSpaceMove | main.py:109-114 | a trailing no-break space does not change how a move is read, so "1,2" followed by U+00A0 is the move (0, 1) |
| ObserverPy.Members | Patterns/Observer.py:24-28 | a single observer contributes itself; a tuple contributes exactly its elements |
| ObserverPy.NotificationSystem.constructor | Patterns/Observer.py:21-22 | a new system has no observers and has sent nothing |
| ObserverPy.NotificationSystem.AddObserver | Patterns/Observer.py:24-28 | the observer set grows by the given observer or by every member of the tuple; nothing is sent |
| ObserverPy.NotificationSystem.RemoveObserver | Patterns/Observer.py:30-31 | removes the observer; raises KeyError iff it was not registered |
| ObserverPy.NotificationSystem.NotifyObservers | Patterns/Observer.py:33-35 | earlier deliveries are kept, and the new ones deliver the message to every registered observer exactly once, in no fixed order, and to nobody else |
| ObserverPy.Demonstration | Patterns/Observer.py:55-68 | three observers get two messages (6 deliveries); after Josh is removed the third message goes once each to Alina and Jacob only |
| ObserverJava.NotificationSystem.constructor | Java/Patterns/Observer.java:20 | a new system has no observers and has sent nothing |
| ObserverJava.NotificationSystem.AddObserver | Java/Patterns/Observer.java:24-26 | the set gains the observer (no change if already present) |
| ObserverJava.NotificationSystem.AddObservers | Java/Patterns/Observer.java:28-30 | the set gains every observer of the argument list, and nothing else |
| ObserverJava.NotificationSystem.RemoveObserver | Java/Patterns/Observer.java:34-36 | removes the observer; an absent observer is silently ignored |
| ObserverJava.NotificationSystem.NotifyObservers | Java/Patterns/Observer.java:40-44 | every registered observer receives the message exactly once, in no fixed order; earlier deliveries are kept |
| ObserverJava.Demonstration | Java/Patterns/Observer.java:72-90 | as in Python: 8 deliveries in all, the last message once each to Alina and Jacob |
| TrafficLights.Next | Python/Patterns/State.py:12-29 | every state's switch installs a different light (Green→Yellow→Red→Green; also Java/Patterns/State.java:7-29) |
| TrafficLights.Phase | Python/Patterns/State.py:34-36 | the position in the cycle counted from the initial red, below 3 |
| TrafficLights.AfterPhase | Python/Patterns/State.py:12-29 | n switches advance the light's position in the cycle by n modulo 3 |
| TrafficLights.PhaseInjective | Python/Patterns/State.py:12-29 | two lights with the same position in the cycle are the same light |
| TrafficLights.PeriodThree | Python/Patterns/State.py:12-29 | three more switches lead back to the same light |
| TrafficLights.CycleVisitsAll | Python/Patterns/State.py:12-29 | from any light, 0, 1 and 2 switches visit all three lights |
| TrafficLights.TrafficLight.constructor | Python/Patterns/State.py:34-36 | a new light is red (Java/Patterns/State.java:37-39) |
| TrafficLights.TrafficLight.SetState | Java/Patterns/State.java:47-49 | the state becomes the given light (Python setter at Python/Patterns/State.py:43-45) |
| TrafficLights.TrafficLight.GetState | Java/Patterns/State.java:42-44 | returns the light's current state |
| TrafficLights.TrafficLight.Switch | Python/Patterns/State.py:47-48 | the state becomes the successor of the old state (Java/Patterns/State.java:52-54) |
| TrafficLights.TrafficLight.SwitchTimes | Python/Patterns/State.py:52-54 | n switches visit After(old, 1) … After(old, n) in order and end in After(old, n) |
| TrafficLights.Demonstration | Java/Patterns/State.java:60-65 | six switches from a new light visit Green, Yellow, Red, Green, Yellow, Red |
| ParkingLot.CreateVehicle | Questions/ParkingLot.py:37-45 | succeeds iff the type is exactly "car", "motorcycle" or "truck" (case-sensitive); the vehicle then carries that type name and the plate; anything else raises ValueError |
| ParkingLot.CreateVehicleRoundTrip | Questions/ParkingLot.py:9-45 | each vehicle kind is created from its own type name |
| ParkingLot.ParkingLotManager.constructor | Questions/ParkingLot.py:72-73 | the first manager stores the given number of free spots |
| ParkingLot.ManagerSingleton.constructor | Questions/ParkingLot.py:66 | no manager exists yet |
| ParkingLot.ManagerSingleton.Instance | Questions/ParkingLot.py:69-74 | the first call creates a manager with the given spots; every later call returns that same manager and ignores its argument |
| ParkingLot.SingletonDemonstration | Questions/ParkingLot.py:86-97 | asking with 50 then 100 yields one manager; after `+= 1` it has 51 spots |
| ParkingLot.Next | Questions/ParkingLot.py:475-496 | each gate state hands over to a different state: Closed→Opening→Open→Closing→Closed |
| ParkingLot.Phase | Questions/ParkingLot.py:501-503 | the position in the gate cycle counted from Closed, below 4 |
| ParkingLot.AdvancePhase | Questions/ParkingLot.py:475-496 | n requests move the gate's position in the cycle by n modulo 4 |
| ParkingLot.PeriodFour | Questions/ParkingLot.py:475-496 | four more requests bring the gate back to the same state |
| ParkingLot.EntryThenExit | Questions/ParkingLot.py:529-572 | the two requests of an entry take a closed gate to Open (not back to Closed), and the two of the following exit bring it back to Closed |
| ParkingLot.ParkingGate.constructor | Questions/ParkingLot.py:501-504 | a new gate is closed with no previous state |
| ParkingLot.ParkingGate.SetState | Questions/ParkingLot.py:506-508 | the old state becomes the previous state and the given one the current |
| ParkingLot.ParkingGate.Request | Questions/ParkingLot.py:513-515 | the gate moves to the successor of its state and remembers the state it left |
| ParkingLot.ParkingGate.GetPrevState | Questions/ParkingLot.py:510-511 | returns the state the gate left on its last transition (none before the first) |
| ParkingLot.Layers | Questions/ParkingLot.py:338-376 | a service has no decorator layers iff it is basic parking; the bare ServiceDecorator counts as a layer |
| ParkingLot.Cost | Questions/ParkingLot.py:327-376 | every service costs at least the 10.00 of basic parking (in cents) |
| ParkingLot.CostIsBasePlusLayers | Questions/ParkingLot.py:327-376 | a service costs 10.00 plus the cost of each of its layers, the bare ServiceDecorator adding nothing |
| ParkingLot.SumCostsByCount | Questions/ParkingLot.py:353-376 | the layers cost 5.00 per wash, 3.00 per vacuum and 15.00 per detailing |
| ParkingLot.CostOrderIndependent | Questions/ParkingLot.py:353-376 | two services with the same layers in any order cost the same |
| ParkingLot.DescriptionIsBasePlusLayers | Questions/ParkingLot.py:333-376 | `Description` is "Basic Parking" followed by each layer's suffix, innermost first; the bare ServiceDecorator adds an empty suffix |
| ParkingLot.FullServiceDemonstration | Questions/ParkingLot.py:385-387 | detailing over vacuum over basic parking costs 28.00 and reads "Basic Parking, Vacuum, Detailing" |
| ParkingLot.ParkingLotSubject.constructor | Questions/ParkingLot.py:441-442 | a new subject has an empty observer list and has sent nothing |
| ParkingLot.ParkingLotSubject.RegisterObserver | Questions/ParkingLot.py:444-445 | the observer is appended, duplicates included |
| ParkingLot.ParkingLotSubject.RemoveObserver | Questions/ParkingLot.py:447-448 | the first occurrence is removed; an absent observer raises ValueError and leaves the list alone |
| ParkingLot.ParkingLotSubject.NotifyObservers | Questions/ParkingLot.py:450-452 | one delivery of the message per list entry, in list order, after the earlier deliveries |
| ParkingLot.ParkingLotFacade.constructor | Questions/ParkingLot.py:520-524 | a facade has no observers, a closed gate, and the singleton manager (created with 50 spots only if none existed) |
| ParkingLot.ParkingLotFacade.EnterParkingLot | Questions/ParkingLot.py:526-556 | an unknown type raises ValueError after the gate has already moved one step, with nothing else changed; otherwise the gate moves two steps, and with a free spot a ticket for the current spot count is issued, the count drops by one and every observer is told of the entry; with none, observers are told entry was denied and no ticket is returned; in every case the gate remembers the state it left on its last step |
| ParkingLot.ParkingLotFacade.ExitParkingLot | Questions/ParkingLot.py:558-572 | the payment is made with the facade's strategy, the gate moves two steps and remembers the state it left on the second, one spot is freed and every observer is told of the exit |
| ParkingLot.EnterThenExit | Questions/ParkingLot.py:587-591 | with a free spot and a closed gate, entering then exiting issues a ticket for the current count and restores both the count and the closed gate |
| ParkingLot.FacadeDemonstration | Questions/ParkingLot.py:576-598 | after the module-level manager reached 51, both demo vehicles get spot 51, the count ends at 51, the gate ends closed and only the security system remains registered |
| ParkingLotJava.CreateVehicleJava | Java/ParkingLotApp.java:46-57 | succeeds iff the type is exactly "car", "motorcycle" or "truck"; otherwise IllegalArgumentException |
| ParkingLotJava.FactoriesAgree | Java/ParkingLotApp.java:46-57 | the Java and Python vehicle factories accept the same names and build the same vehicle from them |
| ParkingLotJava.ParkingSpot.constructor | Java/ParkingLotApp.java:156-160 | the spot stores number, size and reservation |
| ParkingLotJava.ParkingSpot.Clone | Java/ParkingLotApp.java:163-169 | the clone is a new object with the same three fields |
| ParkingLotJava.ParkingSpot.SetSpotNumber | Java/ParkingLotApp.java:175-177 | only the spot number changes |
| ParkingLotJava.ParkingSpot.SetReserved | Java/ParkingLotApp.java:183-185 | only the reservation flag changes |
| ParkingLotJava.CloneIndependence | Java/ParkingLotApp.java:163-185 | changing a clone's number and reservation leaves the original untouched |
| ParkingLotJava.ParkingLotSubjectJava.constructor | Java/ParkingLotApp.java:338 | an empty observer list |
| ParkingLotJava.ParkingLotSubjectJava.RegisterObserver | Java/ParkingLotApp.java:341-343 | the observer is appended |
| ParkingLotJava.ParkingLotSubjectJava.RemoveObserver | Java/ParkingLotApp.java:346-348 | the first occurrence is removed; an absent observer changes nothing and raises nothing |
| ParkingLotJava.ParkingLotSubjectJava.NotifyObservers | Java/ParkingLotApp.java:351-355 | one delivery per list entry, in list order |
| ParkingLotJava.ParkingGateJava.constructor | Java/ParkingLotApp.java:415-417 | a new gate is closed |
| ParkingLotJava.ParkingGateJava.SetState | Java/ParkingLotApp.java:419-421 | the state is replaced (no previous state is kept) |
| ParkingLotJava.ParkingGateJava.Request | Java/ParkingLotApp.java:379-425 | the gate moves to the successor state |
| ParkingLotJava.ParkingLotFacadeJava.constructor | Java/ParkingLotApp.java:434-438 | as in Python: the singleton manager, created with 50 spots only if none existed, and a closed gate |
| ParkingLotJava.ParkingLotFacadeJava.EnterParkingLot | Java/ParkingLotApp.java:440-465 | the vehicle type is never validated; the gate always moves two steps; with a free spot a STANDARD ticket for the current count is issued, the count drops by one and observers are told of the entry; otherwise observers are told entry was denied and null is returned |
| ParkingLotJava.ParkingLotFacadeJava.ExitParkingLot | Java/ParkingLotApp.java:467-477 | payment with the facade's strategy, gate two steps, one spot freed with Java `int` wrap-around (`WrapInt32`), observers told of the exit |
| ParkingLotJava.WrapInt32 | Java/ParkingLotApp.java:63 | the free-spot count is a Java `int`: the result lies in −2^31..2^31−1, differs from the exact value by a multiple of 2^32, and equals it when that is in range |
| ParkingLotJava.FreeSpotsWrap | Java/ParkingLotApp.java:471 | freeing a spot when the count is 2^31−1 makes it −2^31 |
| ParkingLotJava.EnterThenExitJava | Java/ParkingLotApp.java:494-499 | with a free spot and a closed gate, entering then exiting issues a STANDARD ticket and restores the count and the closed gate |
| ParkingLotJava.FacadeDemonstrationJava | Java/ParkingLotApp.java:482-508 | both demo vehicles get spot 50, the count ends at 50, the gate closed, only security registered |
| PizzaShop.Pizza.constructor | Questions/PizzaShop.py:36-40 | a new pizza has no size, crust or sauce and an empty topping set |
| PizzaShop.WithArg | Questions/PizzaShop.py:121-126 | a topping is added to the set, a tuple adds each of its members, and any other argument adds nothing; no other topping appears or disappears |
| PizzaShop.WithArgIdempotent | Questions/PizzaShop.py:121-126 | adding the same argument twice is the same as adding it once |
| PizzaShop.WithArgCommutes | Questions/PizzaShop.py:121-126 | the order of two topping additions does not matter |
| PizzaShop.TupleOrderIrrelevant | Questions/PizzaShop.py:124-125 | two tuples with the same members in any order add the same toppings |
| PizzaShop.PizzaBuilder.constructor | Questions/PizzaShop.py:106-107 | the builder holds a new empty pizza |
| PizzaShop.PizzaBuilder.SetSize | Questions/PizzaShop.py:46-50 | `set_size` (Questions/PizzaShop.py:109-111) goes through this setter: a non-Size argument raises ValueError and changes nothing; otherwise only the pizza's size changes |
| PizzaShop.PizzaBuilder.SetCrust | Questions/PizzaShop.py:56-60 | a non-Crust argument raises ValueError and changes nothing; otherwise only the crust changes |
| PizzaShop.PizzaBuilder.SetSauce | Questions/PizzaShop.py:66-70 | a non-Sauce argument raises ValueError and changes nothing; otherwise only the sauce changes |
| PizzaShop.PizzaBuilder.AddTopping | Questions/PizzaShop.py:121-126 | the topping set grows by the argument as WithArg says; nothing else changes |
| PizzaShop.PizzaBuilder.Build | Questions/PizzaShop.py:128-129 | returns the held pizza itself |
| PizzaShop.CreateRecipe | Questions/PizzaShop.py:135-171 | a missing, empty or non-string name raises ValueError, and so does a size or crust of the wrong type; otherwise the lower-cased name must be margherita (tomato; mushrooms, olives), pepperoni (marinara; pepperoni, sausage) or cheese (tomato, no toppings), each with the requested size and crust; any other name raises ValueError |
| PizzaShop.CreateRecipeCaseInsensitive | Questions/PizzaShop.py:144 | the factory does not see letter case |
| PizzaShop.SizeCrustSauce | Questions/PizzaShop.py:147-149 | the chained setters succeed iff size and crust have their types, and then set all three; otherwise ValueError |
| PizzaShop.CreatePizza | Questions/PizzaShop.py:135-171 | builds a new pizza exactly when the recipe exists, and the pizza is that recipe; otherwise ValueError |
| PizzaShop.ToppingsPriceSplit | Questions/PizzaShop.py:188-212 | the topping total is one topping's table price plus the total of the others |
| PizzaShop.ToppingsPriceIsSum | Questions/PizzaShop.py:210-212 | `ToppingsPrice` equals the sum of `ToppingPrice` over the set, in any order |
| PizzaShop.PriceIsSum | Questions/PizzaShop.py:204-215 | a pizza's `Price` is its `SizePrice` (0 when unset) plus its `CrustPrice` plus the sum over its toppings |
| PizzaShop.PriceAddTopping | Questions/PizzaShop.py:202-213 | adding a topping already present leaves the price alone; adding a new one raises it by that topping's price |
| PizzaShop.MargheritaPrice | Questions/PizzaShop.py:147-195 | a margherita, named in any letter case, costs its size and crust plus 1.25 for mushrooms and olives; 8.25 at medium and thin |
| PizzaShop.PepperoniPrice | Questions/PizzaShop.py:156-195 | a pepperoni pizza, named in any letter case, costs its size and crust plus 2.50 for pepperoni and sausage; 9.50 at medium and thin |
| PizzaShop.CheesePrice | Questions/PizzaShop.py:165-195 | a cheese pizza, named in any letter case, costs its size and crust alone; 7.00 at medium and thin |
| PizzaShop.NextState | Questions/PizzaShop.py:264-284 | an update moves the order on, except that Delivered stays Delivered (and is the only state that does) |
| PizzaShop.History | Questions/PizzaShop.py:303-314 | the history of an order that reached a state starts with "ReceivedState", ends with that state's class name and has one entry per state visited, at most four |
| PizzaShop.HistoryStep | Questions/PizzaShop.py:311-314 | moving to the next state appends exactly its class name to the history |
| PizzaShop.StatusMessage | Questions/PizzaShop.py:321-322 | every notification starts with "Order " |
| PizzaShop.StateMessageInjective | Questions/PizzaShop.py:264-284 | each order state answers `update` with its own message |
| PizzaShop.StatusMessageDetermines | Questions/PizzaShop.py:320-322 | two notifications are equal only for the same order id and the same state, so an observer can read both back |
| PizzaShop.Order.constructor | Questions/PizzaShop.py:296-305 | a new order has no items, total 0, status Received with history ["ReceivedState"], and a fresh notification system without observers |
| PizzaShop.Order.SetStatus | Questions/PizzaShop.py:311-314 | setting the status appends the new state's class name to the history |
| PizzaShop.Order.AddItem | Questions/PizzaShop.py:316-318 | the pizza is appended and the total grows by its default price |
| PizzaShop.Order.UpdateStatus | Questions/PizzaShop.py:320-323 | the status advances (Delivered stays, with no history entry), and every customer observer gets "Order id: message" for the state left, exactly once each |
| PizzaShop.Order.AddCustomerObserver | Questions/PizzaShop.py:326-327 | the observer joins the order's observer set |
| PizzaShop.Order.RemoveCustomerObserver | Questions/PizzaShop.py:329-330 | the observer leaves the set; KeyError iff it was not in it |
| PizzaShop.OrderLifecycle | Questions/PizzaShop.py:264-323 | four updates from Received end Delivered with history ReceivedState, InPreparationState, ReadyState, DeliveredState |
| PizzaShop.Cashier.constructor | Questions/PizzaShop.py:338-349 | a new cashier has total 0 and no orders |
| PizzaShop.Cashier.CreateOrder | Questions/PizzaShop.py:354-358 | the new order's id is the number of orders so far plus one, it is appended to the orders, and the total is unchanged |
| PizzaShop.Cashier.CompleteOrder | Questions/PizzaShop.py:360-364 | the total grows by the order's total iff the order is Delivered |
| PizzaShop.Cashier.GetOrderCount | Questions/PizzaShop.py:366-367 | the number of orders the cashier has created |
| PizzaShop.CashierSingleton.constructor | Questions/PizzaShop.py:335 | no cashier exists yet |
| PizzaShop.CashierSingleton.Instance | Questions/PizzaShop.py:338-344 | the first call creates an empty cashier, every later call returns that one |
| PizzaOrders.PaymentType | Questions/Pizza.py:74-102 | each payment class's `type` is "credit", "paypal" or "cash" |
| PizzaOrders.PaymentTypeInjective | Questions/Pizza.py:84-102 | distinct payment classes have distinct `type` values |
| PizzaOrders.Table | Questions/Pizza.py:20 | every size's value is a key of a price table |
| PizzaOrders.PriceOf | Questions/Pizza.py:24-32 | a price exists iff the size's value is in the table; otherwise the given error (ValueError here, IllegalArgumentException in Java/Questions/Pizza.java:43-50) |
| PizzaOrders.PriceOfOneMoreTopping | Questions/Pizza.py:30-32 | one more topping costs exactly one more topping price |
| PizzaOrders.PriceOfNoToppings | Questions/Pizza.py:30-32 | without toppings a pizza costs its size's table entry |
| PizzaOrders.Pizza.constructor | Questions/Pizza.py:13-21 | a plain pizza keeps type, size and toppings, with prices 10/15/20 and 1.50 per topping (in cents) |
| PizzaOrders.Pizza.CalculatePrice | Questions/Pizza.py:24-32 | a price exists iff the size is in the pizza's table, and is then the size's entry plus one topping price per topping; otherwise ValueError |
| PizzaOrders.Pizza.Margherita | Questions/Pizza.py:49-52 | "margherita", prices 12/16/22 and 2.00 per topping |
| PizzaOrders.Pizza.Pepperoni | Questions/Pizza.py:59-62 | "pepperoni", prices 14/18/25 and 2.00 per topping |
| PizzaOrders.Pizza.GlutenFree | Questions/Pizza.py:69-72 | "gluten-free", prices 14/18/25 and toppings free |
| PizzaOrders.ConstructorTables | Questions/Pizza.py:20-71 | every table a constructor installs prices every size, so those pizzas never raise; a gluten-free price does not depend on the toppings |
| PizzaOrders.PizzaList.constructor | Questions/Pizza.py:109-110 | the caller's list object holds the given pizzas |
| PizzaOrders.PizzaList.Append | Questions/Pizza.py:113-114 | the pizza is appended in place |
| PizzaOrders.TotalOf | Questions/Pizza.py:119-123 | the total exists iff every pizza has a price; otherwise ValueError |
| PizzaOrders.TotalOfAppend | Questions/Pizza.py:119-123 | the empty total is 0, and appending a priced pizza adds its price |
| PizzaOrders.TotalErrExtends | Questions/Pizza.py:121-122 | once some prefix fails, the whole total fails |
| PizzaOrders.Order.constructor | Questions/Pizza.py:109-111 | the order keeps the caller's list object itself and the payment method |
| PizzaOrders.Order.AddPizza | Questions/Pizza.py:113-114 | the pizza is appended to the shared list |
| PizzaOrders.Order.RemovePizza | Questions/Pizza.py:116-117 | the first occurrence is removed; an absent pizza raises ValueError and changes nothing |
| PizzaOrders.Order.CalculateTotal | Questions/Pizza.py:119-123 | the accumulating loop yields TotalOf of the items, raising as soon as one pizza cannot be priced |
| PizzaOrders.AliasingDemonstration | Questions/Pizza.py:109-111 | a pizza the caller appends to its list after creating the order shows up in the order |
| PizzaOrdersJava.PizzaJava.constructor | Java/Questions/Pizza.java:29-41 | type, size and toppings kept; prices 10/15/20 and 1.50 per topping |
| PizzaOrdersJava.PizzaJava.CalculatePrice | Java/Questions/Pizza.java:43-50 | a price exists iff the size is in the pizza's table, and is then the size's entry plus one topping price per topping; otherwise IllegalArgumentException |
| PizzaOrdersJava.PizzaJava.Margherita | Java/Questions/Pizza.java:73-81 | "margherita", prices 12/16/22 and 2.00 per topping |
| PizzaOrdersJava.PizzaJava.Pepperoni | Java/Questions/Pizza.java:93-101 | "pepperoni", prices 14/18/25 and 2.00 per topping |
| PizzaOrdersJava.VersionsAgree | Java/Questions/Pizza.java:43-50 | the Java price equals the Python one whenever the size is priced, and both fail together otherwise |
| PizzaOrdersJava.PizzaListJava.constructor | Java/Questions/Pizza.java:162-163 | the caller's list holds the given pizzas |
| PizzaOrdersJava.PizzaListJava.Append | Java/Questions/Pizza.java:168-170 | the pizza is appended in place |
| PizzaOrdersJava.TotalOfJava | Java/Questions/Pizza.java:178-184 | the total exists iff every pizza has a price; otherwise IllegalArgumentException |
| PizzaOrdersJava.TotalOfJavaAppend | Java/Questions/Pizza.java:178-184 | the empty total is 0, and appending a priced pizza adds its price |
| PizzaOrdersJava.TotalErrExtendsJava | Java/Questions/Pizza.java:180-182 | once some prefix fails, the whole total fails |
| PizzaOrdersJava.OrderJava.constructor | Java/Questions/Pizza.java:162-165 | the order copies the caller's list into a new one |
| PizzaOrdersJava.OrderJava.AddPizza | Java/Questions/Pizza.java:168-170 | the pizza is appended to the order's own list |
| PizzaOrdersJava.OrderJava.RemovePizza | Java/Questions/Pizza.java:173-175 | the first occurrence is removed; an absent pizza changes nothing and raises nothing |
| PizzaOrdersJava.OrderJava.CalculateTotal | Java/Questions/Pizza.java:178-184 | the loop yields TotalOfJava of the items |
| PizzaOrdersJava.CopyDemonstration | Java/Questions/Pizza.java:162-165 | a pizza the caller appends to its list after creating the order does not show up in the order |
| BankRules.Deposited | bank.py:10-12 | a deposit raises the balance by the amount when it is positive and otherwise leaves it; it never lowers the balance |
| BankRules.GuardedWithdrawn | bank.py:14-16 | the base withdrawal subtracts exactly when 0 < amount <= balance; a withdrawal that happens never leaves a negative balance |
| BankRules.OverdraftWithdrawn | bank.py:42-45 | the overdraft withdrawal subtracts whenever balance + limit covers the amount, and then the balance is at least minus the limit |
| BankRules.OverdraftNegativeAmountCredits | bank.py:42-45 | with no positivity check, a negative amount raises the balance |
| BankRules.GuardedTransferConserves | bank.py:18-22 | a covered positive amount withdrawn by the base rule and deposited elsewhere keeps the sum |
| BankPy.WithdrawnBy | bank.py:14-45 | checking accounts use the overdraft rule, every other account the base rule |
| BankPy.TransferConserves | bank.py:18-45 | for any account kind with a non-negative limit, a covered positive transfer keeps the sum |
| BankPy.NegativeLimitTransferCreates | bank.py:38-45 | with a negative overdraft limit the checking rule can refuse a covered withdrawal, so a transfer then creates money |
| BankPy.BankAccount.constructor | bank.py:5-8 | holder, type and balance are stored as given |
| BankPy.BankAccount.GetBalance | bank.py:24-25 | returns the account's balance |
| BankPy.BankAccount.Savings | bank.py:28-31 | account type "savings" with the given interest rate |
| BankPy.BankAccount.Checking | bank.py:38-40 | account type "checking" with the given overdraft limit |
| BankPy.BankAccount.Deposit | bank.py:10-12 | the new balance follows the deposit rule |
| BankPy.BankAccount.Withdraw | bank.py:14-45 | the new balance follows the rule of the account's class |
| BankPy.BankAccount.ApplyInterest | bank.py:33-35 | the balance is multiplied by one plus the rate |
| BankPy.BankAccount.Transfer | bank.py:18-22 | nothing changes unless the types match and the balance covers the amount; then source withdraws and target deposits; between distinct accounts a positive amount keeps the sum |
| BankPy.ProcessAccounts | bank.py:47-50 | every listed account is deposited into and then withdrawn from (`Processed`), once per listing (`ProcessedTimes`) |
| BankPy.Demonstration | bank.py:53-59 | Alice's savings account ends at 70 and Josh's checking account at -55 |
| BankJava.CheckingWithdrawn | Java/Questions/BankAccount.java:86-90 | a covered withdrawal is a deposit of the negated amount |
| BankJava.CheckingWithdrawIgnored | Java/Questions/BankAccount.java:86-90 | a positive withdrawal never changes a checking balance; a negative covered one credits it |
| BankJava.WithdrawnBy | Java/Questions/BankAccount.java:23-90 | savings accounts use the base rule, checking accounts the deposit-based rule |
| BankJava.SavingsTransferConserves | Java/Questions/BankAccount.java:30-35 | a covered positive transfer between savings accounts keeps the sum |
| BankJava.CheckingTransferCreates | Java/Questions/BankAccount.java:30-90 | a covered positive transfer between checking accounts leaves the source and grows the total by the amount |
| BankJava.WithInterest | Java/Questions/BankAccount.java:63-67 | interest changes the balance exactly when balance times rate is positive, and then multiplies it by one plus the rate |
| BankJava.BankAccount.Savings | Java/Questions/BankAccount.java:52-55 | account type "savings" with the given rate |
| BankJava.BankAccount.GetBalance | Java/Questions/BankAccount.java:38-40 | returns the account's balance |
| BankJava.BankAccount.DefaultSavings | Java/Questions/BankAccount.java:58-60 | the default rate is 0.05 |
| BankJava.BankAccount.Checking | Java/Questions/BankAccount.java:74-77 | account type "checking" with the given limit |
| BankJava.BankAccount.DefaultChecking | Java/Questions/BankAccount.java:80-82 | the default overdraft limit is 500 |
| BankJava.BankAccount.Deposit | Java/Questions/BankAccount.java:16-20 | the new balance follows the deposit rule |
| BankJava.BankAccount.Withdraw | Java/Questions/BankAccount.java:23-90 | the new balance follows the rule of the account's class |
| BankJava.BankAccount.ApplyInterest | Java/Questions/BankAccount.java:63-67 | the new balance is WithInterest of the old one |
| BankJava.BankAccount.Transfer | Java/Questions/BankAccount.java:30-35 | nothing changes unless the types match and the balance covers the amount; then source withdraws and target deposits |
| BankJava.ProcessAccounts | Java/Questions/BankAccount.java:94-100 | every listed account is deposited into and then withdrawn from (`Processed`), once per listing (`ProcessedTimes`) |
| BankJava.Demonstration | Java/Questions/BankAccount.java:102-111 | Alice ends at 70 and Josh, whose withdrawal is ignored, at 45 |
| BankBaseJava.BankAccount.constructor | Java/Questions/Bank.java:7-11 | holder, type and balance are stored as given; holder and type are constants |
| BankBaseJava.BankAccount.GetBalance | Java/Questions/Bank.java:36-38 | returns the account's balance |
| BankBaseJava.BankAccount.GetAccountHolder | Java/Questions/Bank.java:41-43 | the holder given at construction |
| BankBaseJava.BankAccount.Deposit | Java/Questions/Bank.java:14-18 | the new balance follows the deposit rule |
| BankBaseJava.BankAccount.Withdraw | Java/Questions/Bank.java:21-25 | the new balance follows the guarded rule, so it never goes negative by a withdrawal |
| BankBaseJava.BankAccount.Transfer | Java/Questions/Bank.java:28-33 | nothing changes unless the types match and the balance covers the amount; between distinct accounts a positive amount keeps the sum |
| BankAbstract.SavingsWithdrawn | Python/abstract.py:26-28 | subtracts exactly when the balance covers the amount, never below zero; a negative amount raises the balance |
| BankAbstract.WithdrawnBy | Python/abstract.py:26-40 | savings accounts use their own rule, checking accounts the overdraft rule |
| BankAbstract.SavingsVersusGuarded | Python/abstract.py:26-28 | the savings rule agrees with the base guarded rule on positive amounts and differs on covered negative ones |
| BankAbstract.BankAccount.Savings | Python/abstract.py:22-24 | account type "savings" with the given rate |
| BankAbstract.BankAccount.GetBalance | Python/abstract.py:18-19 | returns the account's balance |
| BankAbstract.BankAccount.Checking | Python/abstract.py:34-36 | account type "checking" with the given limit |
| BankAbstract.BankAccount.Deposit | Python/abstract.py:10-12 | the new balance follows the deposit rule |
| BankAbstract.BankAccount.Withdraw | Python/abstract.py:26-40 | the new balance follows the rule of the account's class |
| BankAbstract.BankAccount.ApplyInterest | Python/abstract.py:30-31 | the balance is multiplied by one plus the rate |
| Tools.Description | Patterns/Decorators.py:39-118 | a description is never empty and starts with a base tool name |
| Tools.BaseOf | Patterns/Decorators.py:80-82 | the innermost wrapped tool is a base tool |
| Tools.Layers | Patterns/Decorators.py:80-158 | a tool has no decorator layers exactly when it is a base tool |
| Tools.StatIsBasePlusLayers | Patterns/Decorators.py:98-153 | each stat (`Damage`, `DurabilityOf`, `Speed`) is the base stat plus the values of the layers that touch that stat |
| Tools.DecoratorTouchesOwnStat | Java/Patterns/Decorators.java:89-173 | each decorator delegates to the tool it wraps and adds its value to its own stat only; the bare decorator adds nothing |
| Tools.SumRemove | Patterns/Decorators.py:98-153 | removing one layer removes exactly its contribution |
| Tools.SumPermutation | Patterns/Decorators.py:98-153 | the layer sum does not depend on the layers' order |
| Tools.WrappingOrderIrrelevant | Java/Patterns/Decorators.java:118-173 | two stacks on the same base with the same enchantments in any order have equal stats |
| Tools.SuffixesSnoc | Java/Patterns/Decorators.java:131-171 | one more layer appends exactly its suffix |
| Tools.DescriptionIsBasePlusLayers | Patterns/Decorators.py:114-158 | the description is the base name followed by one suffix per enchantment, innermost first |
| Tools.FullyEnchantedSword | Patterns/Decorators.py:161-185 | the demo sword has damage 57, durability 37 and speed 55, and its description lists the three enchantments in order |
| Shipping.StrategiesCompared | Python/Patterns/Strategy.py:12-29 | every strategy charges the same fixed 10; per unit of weight and quantity, electronics charge 20 times and undiscounted books 10 times what clothing charges |
| Shipping.Cost | Python/Patterns/Strategy.py:12-29 | with zero weight or quantity a cost is the fixed 10 (8 for a discounted book order); with non-negative weight and quantity it is never below that |
| Shipping.BookDiscount | Python/Patterns/Strategy.py:24-29 | up to five items the book cost is 10 times the clothing cost's variable part plus 10; above five it is four fifths of that |
| Shipping.SixBooksCheaperThanFive | Java/Patterns/Strategy.java:25-31 | for any positive weight, six books cost less than five because of the discount |
| Shipping.CostMonotone | Java/Patterns/Strategy.java:7-32 | with a non-negative weight more items never cost less, apart from crossing the book discount |
| Shipping.ShippingCalculator.Python | Python/Patterns/Strategy.py:34-37 | a new calculator keeps weight and quantity and has no strategy |
| Shipping.ShippingCalculator.Java | Java/Patterns/Strategy.java:42-46 | a new calculator keeps weight and quantity and has no strategy |
| Shipping.ShippingCalculator.SetStrategy | Python/Patterns/Strategy.py:39-40 | replaces only the strategy |
| Shipping.ShippingCalculator.SetWeight | Java/Patterns/Strategy.java:61-63 | replaces only the weight |
| Shipping.ShippingCalculator.SetQuantity | Java/Patterns/Strategy.java:66-68 | replaces only the quantity |
| Shipping.ShippingCalculator.CalculateCost | Python/Patterns/Strategy.py:42-47 | without a strategy it fails (ValueError in Python, IllegalStateException at Java/Patterns/Strategy.java:53-58); otherwise the strategy's cost of the stored weight and quantity |
| Shipping.Demonstration | Python/Patterns/Strategy.py:52-66 | electronics cost 210, clothing 20 and six half-kilo books 32 |
| PizzaBuilders.Pizza.constructor | Java/Questions/PizzaBuilder.java:32-34 | a new pizza has no size, crust or sauce and no toppings |
| PizzaBuilders.Pizza.SetSize | Questions/PizzaBuilder.py:49-51 | replaces only the size |
| PizzaBuilders.Pizza.SetCrust | Questions/PizzaBuilder.py:58-60 | replaces only the crust |
| PizzaBuilders.Pizza.SetSauce | Questions/PizzaBuilder.py:67-69 | replaces only the sauce |
| PizzaBuilders.Pizza.SetToppings | Questions/PizzaBuilder.py:76-78 | replaces only the topping list |
| PizzaBuilders.Pizza.ToString | Java/Questions/PizzaBuilder.java:74-79 | the text starts with "Pizza(size=" and ends with ")"; with `TextDeterminesFields`, it shows every field |
| PizzaBuilders.DemonstrationCrust | Java/Questions/PizzaBuilder.java:74-79 | crust, sauce and toppings of the demo pizza, by their enum names |
| PizzaBuilders.DemonstrationList | Java/Questions/PizzaBuilder.java:77-78 | a topping list renders as its names in brackets, comma-separated, in order |
| PizzaBuilders.DemonstrationSauce | Java/Questions/PizzaBuilder.java:77-79 | sauce then toppings, closing the parenthesis |
| PizzaBuilders.NamesDistinct | Java/Questions/PizzaBuilder.java:74-79 | no enum name (or `null`) holds a comma, and different values of one field have different names |
| PizzaBuilders.JoinedShape | Java/Questions/PizzaBuilder.java:78 | a rendered topping list is empty iff the list is, and holds a comma iff it has two or more toppings |
| PizzaBuilders.JoinedInjective | Java/Questions/PizzaBuilder.java:78 | different topping lists render differently |
| PizzaBuilders.TextDeterminesFields | Java/Questions/PizzaBuilder.java:74-79 | two pizzas with the same `toString` text have the same size, crust, sauce and toppings, in the same order |
| PizzaBuilders.PizzaBuilder.constructor | Questions/PizzaBuilder.py:106-107 | the builder holds a fresh empty pizza |
| PizzaBuilders.PizzaBuilder.SetSize | Questions/PizzaBuilder.py:109-111 | sets only the pizza's size and returns the same builder |
| PizzaBuilders.PizzaBuilder.SetCrust | Questions/PizzaBuilder.py:113-115 | sets only the crust and returns the same builder |
| PizzaBuilders.PizzaBuilder.SetSauce | Questions/PizzaBuilder.py:117-119 | sets only the sauce and returns the same builder |
| PizzaBuilders.PizzaBuilder.AddTopping | Java/Questions/PizzaBuilder.java:111-114 | appends the topping, keeping duplicates |
| PizzaBuilders.PizzaBuilder.AddToppings | Java/Questions/PizzaBuilder.java:117-120 | appends all toppings in order |
| PizzaBuilders.PizzaBuilder.AddToppingOrList | Questions/PizzaBuilder.py:121-127 | a list is appended element by element in order, a single topping once |
| PizzaBuilders.PizzaBuilder.Build | Questions/PizzaBuilder.py:129-130 | returns the builder's one pizza object |
| PizzaBuilders.Demonstration | Java/Questions/PizzaBuilder.java:131-140 | the demo pizza is large, thin, tomato with jalapeno and olives, and prints as such |
| PizzaBuilders.BuildAliasing | Questions/PizzaBuilder.py:129-130 | two builds return the same object, and a topping added after the first build shows up in it |
| Meals.Meal.Python | Patterns/Builder.py:32-36 | a new meal has nothing chosen and an empty side list |
| Meals.Meal.TypeScript | Typescript/Patterns/Builder.ts:28-31 | a new meal has nothing chosen and no side list at all |
| Meals.Meal.SetMainItem | Patterns/Builder.py:43-45 | replaces only the main item |
| Meals.Meal.SetSides | Patterns/Builder.py:52-54 | replaces only the sides |
| Meals.Meal.SetDrink | Patterns/Builder.py:61-63 | replaces only the drink |
| Meals.Meal.SetDessert | Patterns/Builder.py:70-72 | replaces only the dessert |
| Meals.Meal.PushSides | Typescript/Patterns/Builder.ts:83-91 | pushing onto a missing side list fails with a TypeError and changes nothing; otherwise the items are appended in order |
| Meals.MealBuilder.constructor | Patterns/Builder.py:101-102 | the builder holds a fresh meal |
| Meals.MealBuilder.SetMainItem | Patterns/Builder.py:104-106 | sets only the main item and returns the same builder |
| Meals.MealBuilder.AddSide | Patterns/Builder.py:108-113 | a list extends the sides in order, a single side is appended |
| Meals.MealBuilder.SetDrink | Patterns/Builder.py:115-117 | sets only the drink and returns the same builder |
| Meals.MealBuilder.SetDessert | Patterns/Builder.py:119-121 | sets only the dessert and returns the same builder |
| Meals.MealBuilder.Build | Patterns/Builder.py:123-124 | returns the builder's one meal object |
| Meals.MealBuilderTs.constructor | Typescript/Patterns/Builder.ts:76 | the builder holds a fresh meal without a side list |
| Meals.MealBuilderTs.SetMainItem | Typescript/Patterns/Builder.ts:78-81 | sets only the main item and returns the same builder |
| Meals.MealBuilderTs.AddSide | Typescript/Patterns/Builder.ts:83-91 | pushes a list in order or one side, failing with a TypeError while the meal has no side list |
| Meals.MealBuilderTs.SetDrink | Typescript/Patterns/Builder.ts:93-96 | sets only the drink and returns the same builder |
| Meals.MealBuilderTs.SetDessert | Typescript/Patterns/Builder.ts:98-101 | sets only the dessert and returns the same builder |
| Meals.MealBuilderTs.Build | Typescript/Patterns/Builder.ts:103-110 | returns the meal built so far and installs a fresh one |
| Meals.Demonstration | Patterns/Builder.py:128-135 | the demo meal is a sandwich with onion rings and side salad, juice and cookies |
| Meals.DemonstrationTs | Typescript/Patterns/Builder.ts:103-110 | two consecutive builds return distinct meals, the second empty, and adding a side to a fresh meal fails |
| Factories.Requirements | Patterns/Factory.py:12-35 | each attraction's requirements have exactly its two keys |
| Factories.KeysDisjoint | Java/Patterns/Main.java:10-35 | no two attractions share a requirement key |
| Factories.CreateAttraction | Patterns/Factory.py:41-49 | succeeds exactly on the three exact names, yielding the attraction of that name; ValueError otherwise |
| Factories.CreateAttractionRoundTrip | Patterns/Factory.py:41-49 | creating an attraction from its own name gives it back, and only its name does |
| Factories.CreateAttractionJava | Java/Patterns/Main.java:40-51 | null fails with NullPointerException; otherwise the lower-cased name is matched, else IllegalArgumentException |
| Factories.AttractionFactoriesAgree | Java/Patterns/Main.java:40-51 | the Java factory ignores case and accepts a name exactly when Python accepts its lower-cased form, with the same attraction |
| Factories.CapitalisedName | Java/Patterns/Main.java:41 | "WaterSlide" is accepted by Java and refused by Python |
| Factories.Create | Typescript/Patterns/Factory.ts:128-134 | each enum member creates the attraction whose name is that member's value |
| Factories.RequirementNumber | Typescript/Patterns/Factory.ts:99-115 | the TypeScript requirement numbers are 20, 50 and 75 |
| Factories.CreateInjective | Typescript/Patterns/Factory.ts:118-134 | different enum members create different attractions with different requirement numbers |
| Factories.GetShape | Java/Patterns/Factory.java:40-56 | null gives null; a name is accepted case-insensitively exactly when it is circle, square or rectangle; else IllegalArgumentException; a triangle is never produced |
| Factories.TriangleUnreachable | Java/Patterns/Factory.java:15-55 | "triangle" is refused, and every produced shape is a circle, square or rectangle |
| Factories.GetShapeCaseInsensitive | Java/Patterns/Factory.java:46 | the result depends only on the lower-cased name |
| Factories.BuildNewYork | Typescript/Patterns/Factory.ts:79-88 | only "margherita" and "pepperoni" are built; anything else fails |
| Factories.OrderPizza | Typescript/Patterns/Factory.ts:62-74 | a built pizza goes through prepare, bake, cut and box in that order, each exactly once (as a multiset); an unknown one fails before any step |
| Lists.RemoveFirst | Questions/Pizza.py:116-117 | removing from a list deletes only the first equal element, keeping the order of the rest, and leaves a list without it unchanged |
| Text.Lower | Java/Patterns/Main.java:41 | lower-casing keeps the length, maps each character on its own and leaves no upper-case ASCII letter |
| Text.ShowIntInjective | Questions/PizzaShop.py:322 | different integers render as different decimal texts |
| Text.ShowIntChars | Questions/PizzaShop.py:322 | a rendered integer holds only a sign and digits |

## Left out

- Console output (`print`, `System.out.println`, `console.log`) and the demonstration scripts' printing: the demonstrations are methods whose postconditions state the values the scripts print.
- Floating point: `double` and Python `float` are modelled as exact `real` (banks, shipping, tool stats) or integer cents (fixed price tables), so rounding is not captured.
- The tic-tac-toe input loop and board printing in main.py: only the parse and bounds check of a move and the turn step are modelled, with the line read supplied as a parameter.
- Iteration order of Python sets and Java `HashSet`s: notification is modelled as reaching every registered observer exactly once, in an unspecified order.
- Message texts built with f-strings, `capitalize` and string concatenation in the parking lot: notices are a datatype carrying the vehicle type, plate and spot; the pizza shop's status messages are modelled as text.
- Tools.Description: the numbers in a decorator's description are kept as numbers, because rendering a `float` as text is not modelled.
- Unicode case mapping: `lower()`/`toLowerCase()` are modelled on ASCII letters only.
- Threads and locks of the parking-lot singleton: calls are sequential in the model.
- The parking-lot ticket builders, the payment adapter and the date source: a ticket is a value with the fixed entry-time text the source uses, and payments are recorded in a ghost trace.
- The pizza shop's pricing strategy is fixed to its default pricing, the only one the source defines.
- The Python pizza builder's `__str__`, which prints enum members through their Python representation; the Java `toString` is modelled.
- PizzaBuilders.Pizza.SetToppings: the Java setter stores the caller's list object; the model stores its contents, so later changes to that list are not seen.
- TicTacToe.ParseMove: Python's `int()` also accepts any Unicode decimal digit (fullwidth "３", Arabic-Indic digits); the model reads ASCII digits only and answers BadFormat for those.
- PizzaShop.PizzaBuilder.AddTopping: the tuple branch adds a tuple's members without checking their type, so a non-Topping member would land in the set; the model's tuple holds Toppings only. A non-Topping, non-tuple argument is modelled (`Other`, ignored).
- PizzaOrders.Pizza and PizzaOrdersJava.PizzaJava: both sources keep the caller's topping list object (Questions/Pizza.py:17, Java/Questions/Pizza.java:40), so a later append by the caller changes the price; the model stores the list's contents at construction.
- The TypeScript factory module's top-level calls that order a margherita and a pepperoni pizza: `OrderPizza` states what each call does.
- Meals: the side items are one enumeration holding the Python and TypeScript members together.
- The adapter, facade, prototype and singleton exercises outside the parking lot, Java/Patterns/Builder.java and Python/decorators.py are not part of this model.
