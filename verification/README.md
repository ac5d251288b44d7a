# Booking wizard of the barbershop queue front end

This project models the customer booking screen of the barbershop queue web client
(`src/app/page.tsx`). A customer:

1. picks one or more services,
2. picks a barber,
3. types a name and a phone number,
4. joins the queue.

That last step posts a queue request to the API and opens the status page of the new entry.

The model is purely functional:

- `Types` holds the records the screen reads: `Service`, `User` and an `Option` type. It also defines JavaScript truthiness for `number | null`, where `null` and `0` are falsy.
- `Selection` models the toggle on the list of selected service ids.
- `Duration` models the minutes total shown in the footer. It also gives an independent reference sum and proves the two equal.
- `Booking` models the wizard state (step, selection, barber, name, phone, pending flag). It has one transition function per control, and each returns `None` when the control is hidden or disabled. It also holds the mutation's guard and payload, the handling of the reply, a reachability invariant and the end-to-end walk-through.
- `Seqs` holds the sequence predicates shared by the others: subsequence, no duplicates, element set.

Effects leave the screen as values of `Booking.Effect`: `Post(request)`, `Navigate(queueId)` and `Alert`. Nothing is sent anywhere.

## Model

| member | source | states |
|---|---|---|
| Selection.Without | src/app/page.tsx:71 | Filtering an id out removes every occurrence of it and keeps every other id. The multiset of the result is the input's multiset with that id's count set to zero. |
| Selection.WithoutKeepsOrder | src/app/page.tsx:71 | The ids that survive the filter keep their original relative order: the result is a subsequence of the input. |
| Selection.WithoutNoDup | src/app/page.tsx:71 | Filtering a duplicate-free list leaves it duplicate-free. |
| Selection.Toggle | src/app/page.tsx:69-73 | The toggled id is in the result exactly when it was not in the input. No other id changes membership. If the id was selected, it is removed and the rest keep their order and counts. If it was not selected, it is appended: the length grows by one and the earlier ids are unchanged. Duplicate-freedom is kept. |
| Selection.ToggleTwiceAbsent | src/app/page.tsx:69-72 | Selecting an unselected service and then deselecting it restores the original selection exactly. |
| Selection.ToggleTwicePresent | src/app/page.tsx:69-72 | In a duplicate-free selection, deselecting and then reselecting a service gives the same ids as a multiset, with that service moved to the end. |
| Selection.ToggleAllNoDup | src/app/page.tsx:69-73 | Starting from a duplicate-free selection, any sequence of card clicks leaves the selection duplicate-free. |
| Duration.Chosen | src/app/page.tsx:76 | The filtered list holds exactly the loaded services whose id is selected. Each selected service occurs as often as in the loaded list, and the services keep their list order. The list is empty when nothing is selected. |
| Duration.TotalDuration | src/app/page.tsx:75-77 | The total is 0 while the services have not loaded and when nothing is selected. |
| Duration.Reduce | src/app/page.tsx:77 | The left-to-right reduce from an accumulator equals that accumulator plus the reference sum of the list. |
| Duration.TotalDurationIsSum | src/app/page.tsx:75-77 | The total equals the independent reference sum of `avgDuration` over the loaded services whose id is in the selection. |
| Duration.TotalDurationOrderFree | src/app/page.tsx:75-77 | Two selections holding the same set of ids give the same total, whatever their order or repetitions. |
| Duration.ToggleMovesTotal | src/app/page.tsx:69-77 | Selecting an id raises the total by the minutes of the services carrying that id. Deselecting it lowers the total by the same amount. |
| Duration.TotalDurationBounds | src/app/page.tsx:75-77 | With non-negative durations, the total lies between 0 and the sum over every loaded service. |
| Booking.Start | src/app/page.tsx:16-20 | The screen mounts on the services step with nothing selected, no barber, an empty name and phone, and no pending request. |
| Booking.PickService | src/app/page.tsx:107-122 | A service card can be clicked only on the services step. The click changes only the selection: it becomes the toggled list, so the clicked id's membership flips. |
| Booking.GoToBarber | src/app/page.tsx:145-148 | The move from services to barber is possible exactly when the selection is non-empty. It changes only the step. |
| Booking.GoBackToServices | src/app/page.tsx:161 | The back move from barber to services is always possible on the barber step. It keeps the selection, barber, name, phone and pending flag. |
| Booking.PickBarber | src/app/page.tsx:170-179 | A barber card can be clicked only on the barber step. The click sets the barber to the clicked id and changes nothing else. |
| Booking.GoToConfirm | src/app/page.tsx:195-198 | The move from barber to confirm is possible exactly when a barber id is set and is not 0. It changes only the step. |
| Booking.GoBackToBarber | src/app/page.tsx:211 | The back move from confirm to barber is always possible on the confirm step. It keeps every entry. |
| Booking.SetName | src/app/page.tsx:218-224 | The name field exists only on the confirm step. Typing replaces the name and nothing else. |
| Booking.SetPhone | src/app/page.tsx:228-234 | The phone field exists only on the confirm step. Typing replaces the phone and nothing else. |
| Booking.Request | src/app/page.tsx:50-57 | A request is built exactly when the selection is non-empty and the barber id is truthy. It carries the name, the phone, the chosen barber and the first selected service. |
| Booking.SubmitClick | src/app/page.tsx:239-243 | The submit button is enabled exactly on the confirm step, with a non-empty name, a non-empty phone and no pending request. A click sets pending and changes nothing else. It posts when the mutation's guard passes and posts nothing otherwise. |
| Booking.Resolve | src/app/page.tsx:60-66 | A reply arrives only while a request is pending and clears the pending flag, leaving every entry intact. A created entry navigates to its id; a failure alerts. |
| Booking.Next | src/app/page.tsx:106-248 | Only the submit button posts. Only a successful reply navigates. Only the four step buttons change the step. Only service cards change the selection. |
| Booking.ApplyKeepsInv | src/app/page.tsx:145-198 | Every action keeps the invariant. The invariant says the selection has no duplicates, the barber step has a non-empty selection, and the confirm step also has a truthy barber id. |
| Booking.RunKeepsInv | src/app/page.tsx:145-198 | Any sequence of actions from a state that meets the invariant ends in a state that meets it. |
| Booking.SubmitAlwaysPosts | src/app/page.tsx:50-57 | On every screen reachable from the start, an enabled submit passes the mutation's guard. It posts the first selected service and the chosen non-zero barber id. |
| Booking.BackUndoesForward | src/app/page.tsx:145-211 | A forward move followed at once by the matching back move returns the earlier state. |
| Booking.LastBarberWins | src/app/page.tsx:179 | Choosing two barbers in a row is the same as choosing only the second. |
| Booking.RequestIgnoresLaterSelections | src/app/page.tsx:56 | The request depends on the selection only through its first id. |
| Booking.OneRequestInFlight | src/app/page.tsx:242 | In the model, once pending is set, the submit button stays disabled until a reply arrives. |
| Booking.WalkThroughReachesConfirm | src/app/page.tsx:69-234 | Selecting service 3, confirming, choosing barber 2, confirming and typing "Ana" and a phone number reaches the confirm step with those entries. |
| Booking.WalkThrough | src/app/page.tsx:50-61 | On that screen, submit posts `{clientName: "Ana", clientPhone: "11999990000", barberId: 2, serviceId: 3}`, and a reply with id 17 navigates to entry 17. With service 3 taking 30 minutes, the footer total is 30. |

## Left out

- Fetching the services and barbers lists, their loading and empty states, and fetching barbers only on the barber step (src/app/page.tsx:23-39). These are network I/O and caching-library behaviour. Card clicks therefore take any service id or `User`; the model does not check that the card came from a loaded list.
- The HTTP client and its request interceptor, which does nothing (src/lib/api.ts). This is network I/O.
- `totalPrice` and the `toFixed(2)` formatting (src/app/page.tsx:79-81, 131, 143). This is floating-point arithmetic. `Service.price` is carried as a `real` but never used.
- Rendering, styling, images and the layout (src/app/page.tsx:83-265, src/app/layout.tsx). This is presentation only.
- `router.push`, `alert` and `console.error` are not performed. They appear only as the `Navigate` and `Alert` effects. The role-switch buttons that open the login page (src/app/page.tsx:257-261) are presentation wiring and are not modelled.
- When its guard fails, the mutation function returns `undefined`, and what the mutation library then does with `onSuccess` is not modelled. `Booking.SubmitAlwaysPosts` shows that this path cannot be reached from the screen.
- Ids are unbounded integers. JavaScript numbers are doubles, so fractional and NaN ids are not modelled. The `|| 0` after the duration sum only maps an absent list to 0, since an integer sum has no other falsy value.
- Queue-entry status transitions, the queue status page, login and the barber and admin dashboards are outside the booking screen. The status enum (src/lib/types.ts:6-11) declares states, but no code here checks a transition.
- Booking.OneRequestInFlight: the model sets `isPending` at the click itself. In the source the click only starts the mutation, and the disabled button appears on a later render. A second click before that render would post again, and the model does not cover that window.
- Booking.SubmitClick: the pending flag is set in the same step as the click, for the reason given on the line above.
